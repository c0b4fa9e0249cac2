# qal: pagination cursors, provider adapters and the deduplicating store, in Dafny

This project models the query engine of `qal`, a tool that queries academic digital
libraries (IEEE Xplore, Elsevier Science Direct and Springer Nature), and proves
properties of that model. The tool follows a plan of sites and queries and gathers
publication records into one store that removes duplicates. The model covers the
settled package `src/qal` and the earlier draft `src/scrape_acad_library`:

- **The adapter cursor** (`Paging`, `Library`). An adapter has a start, a page size, a
  total that stays -1 until the provider reports one, an error flag and the collected
  `query_data`.
  - `has_results` puts the adapter in one of three phases: active, exhausted or errored.
  - `batch` sends one request and processes the response.
  - Any exception sets `error`, and nothing clears it again.
  - `run` repeats batches while results are expected.
  - The batch estimates use integer ceiling division.
  - Symbolic query options are translated to native names through a fixed table.
- **The three providers** (`Ieee`, `ScienceDirect`, `Springer`). Each one has its
  option table and defaults. Each builds its request from fixed keys with `query_data`
  merged over them. Each `process_results` moves the cursor and builds records from
  the provider's JSON body, which is modelled as a datatype.
- **Publications** (`Types`): the four record variants, their `venue()` and
  `asdict()`, and the provenance map, to which `add_search_terms` only ever appends.
- **The results store** (`Store`). Records are keyed by identifier, and the first
  record seen for an identifier is the one kept. Provenance is appended to the kept
  record, and a save happens every `saviness` additions.
- **The registry** (`Registry`): aliases mapped to adapter classes and to the
  environment variables that hold the API keys, the key lookup, and `make_api`.
- **The orchestrator** (`AutoQuery`). It seeds a status grid with one cell per
  (site, query), restores a saved cell into a fresh adapter, and writes the cell back
  after each page. It keeps the `incomplete` counter and runs sweeps, either a fixed
  number of rounds or until nothing is incomplete. Its store is opened with
  `saviness` 1, so every page item saves it once, and after a page the store holds
  the old contents with `add_item` applied to each of the page's items in turn.
  What a flagged cell does to the whole state (status, requests, written statuses,
  store contents and saves) is the function `CellStep`. A sweep does `RunCells`:
  `CellStep` on each cell its starting flags schedule, in order, until one crashes.
  A run does `Sweeps` (a fixed number of sweeps) or `SweepsUntilDone`.
- **The draft package** (`Draft`, `DraftTypes`): its configurable base adapter and
  its `run` loop, the request-parameter assembly, the three provider configurations,
  its alias registry, and its publication type, whose second `add_search_terms` for
  a source raises.

Pure logic is written as functions and lemmas. Objects whose fields the source
updates in place are classes, and their methods are proved against those
functions:

- the adapters;
- the publication objects;
- the store;
- the registries;
- the orchestrator.

The network is an oracle, `network(n, request)`. It gives the response to the
n-th request sent: a decoded JSON body, or the failure that remains once the
retries are spent. The environment is a map, and each provider's `sanitize_venue`
is a function parameter.

The model follows the code where the code departs from what was evidently meant,
and proves those departures as plain behaviour:

- **The seeding mix-up.** The flag of cell (j, i) reads the enabled flag of site i,
  not of site j. A plan with more queries than sites therefore fails with an
  IndexError.
- **One record per author.** An IEEE Xplore conference paper gives one record per
  author, all of them under the same identifier.
- **`max_runs` and `get` return None.** Each computes a value and returns nothing.
- **`Book.asdict` returns None**, for the same reason.
- **Springer Nature Article records raise.** The Article branch calls
  `results.append()` with no argument, and `process_results` returns the raw records
  rather than the records it builds.
- **The draft's second provenance add raises.** It calls `.append` on the
  dictionary itself.
- **The draft Science Direct adapter raises on its first page.** It reads `entry` at
  the top level of the response.

## Model

| member | source | states |
|---|---|---|
| Paging.HasResultsIsActive | src/qal/digital_library.py:171-178 | `has_results` holds exactly in the Active phase. |
| Paging.ExhaustedOneRecordEarly | src/qal/digital_library.py:171-178 | With a 1-based start, after `n` records a known positive total counts as exhausted exactly when `n >= total - 1`, for every page size. |
| Paging.CeilDiv | src/qal/digital_library.py:194-203 | `ceil(a / b)` as the least multiple bound: `q*b - b < a <= q*b` for a positive divisor, mirrored for a negative one. |
| Paging.EstimateBatches | src/qal/digital_library.py:194-199 | 1000 when the total is not positive. Otherwise the number of pages of `pageSize` that cover `total` and no fewer. A zero page size gives the division error (None). |
| Paging.EstimateBatchesLeft | src/qal/digital_library.py:201-203 | All the batches minus `ceil(start / pageSize)`, with no clamping. Fails exactly on a zero page size. |
| Paging.NoBatchesLeftWhenExhausted | src/qal/digital_library.py:194-203 | Once `start` reaches a known positive total, the estimate of batches left is zero or negative. |
| Paging.Translate | src/qal/digital_library.py:106-129 | A name succeeds iff it is in the table with the key flag set. An unknown name raises `UnknownQueryParameter`. A delegated name raises through the default hook. |
| Paging.SetQueryData | src/qal/digital_library.py:119-122 | A successful option writes its value under the native name and changes no other entry. |
| Paging.ApplyQueryFailsIffSomeNameFails | src/qal/digital_library.py:131-133 | `set_query_options` succeeds iff every name translates. On failure it raises the error of one of the names. |
| Paging.ApplyQueryStopsAtFirst | src/qal/digital_library.py:131-133 | When name k is the first that does not translate, `set_query_options` raises name k's error, and `query_data` is what the names before k wrote: the later names are never tried. |
| Paging.ApplyQueryOnlyWritesNativeNames | src/qal/digital_library.py:131-133 | An entry whose key no applied option writes survives `set_query_options` unchanged, even when a later option fails. |
| Paging.Merge | src/qal/ieeexplore.py:75-79 | `dict.update`: the keys are the union, every override wins, and every other fixed entry stays. |
| Paging.AfterBatch | src/qal/digital_library.py:180-192 | With no results expected, a batch changes nothing and yields nothing. A failed request or a raising `process_results` sets `error` and yields nothing. An error is never cleared. |
| Paging.Drive | src/qal/digital_library.py:205-213 | The run loop stops only when it runs out of responses or no results are expected. If none were expected at the start, it sends nothing. |
| Paging.DriveStalls | src/qal/digital_library.py:205-213 | A batch that returns nothing and leaves the cursor in place makes `run` use up every response without ending. |
| Paging.DriveErrorEndsRun | src/qal/digital_library.py:190-213 | A first batch that raises ends the run after one response, with `error` set and nothing yielded. |
| Paging.DriveCountsRecords | src/qal/digital_library.py:205-213 | When every page advances `start` by the records it returns, a run moves `start` by exactly the records it yields and never sets `error`. It stops before its responses run out only once `start >= total`. |
| Paging.OneRecordPages | src/qal/digital_library.py:171-178 | From a cursor with a known positive total, pages of one record each yield exactly `total - start` records. |
| Paging.RunStopsOneRecordShort | src/qal/digital_library.py:171-178 | A fresh 1-based run against `total >= 2` records, fetched one per page, ends with `total - 1` records: the last record is never requested. |
| Library.RequestShape | src/qal/digital_library.py:151-161 | Each provider's request has its method and endpoint. It carries the cursor's start and page size under the provider's paging keys, and the API key. Every `query_data` entry appears as given. No translated option can override a paging key. |
| Library.ProcessSpec | src/qal/digital_library.py:163-169 | A body of another provider's shape raises before any field moves. IEEE Xplore and Science Direct return publications, and Springer Nature returns raw records. Science Direct returns for every body of its shape. |
| Library.IeeeEmptyPageStalls | src/qal/ieeexplore.py:82-86 | Once the total is known, an IEEE Xplore page with no articles leaves the cursor where it was, so `run` keeps asking for as long as responses come. |
| Library.RateLimitStalls | src/qal/science_direct.py:55-59 | Rate-limited responses neither move the cursor nor end `run`. |
| Library.DigitalLibrary.constructor | src/qal/digital_library.py:51-83 | A new adapter has its provider's name, description, method and endpoint, the given start and page size, total -1, no error, and empty `options` and `query_data`. |
| Library.DigitalLibrary.SetOption | src/qal/digital_library.py:98-100 | Sets one non-query option and changes no other field. |
| Library.DigitalLibrary.SetOptions | src/qal/digital_library.py:102-104 | Merges the given options over the old ones, and the given ones win. |
| Library.DigitalLibrary.SetQueryOption | src/qal/digital_library.py:117-129 | Returns the translation's outcome. On success `query_data` gains the native key. On failure nothing changes. `query_data` holds only native names. |
| Library.DigitalLibrary.SetQueryOptions | src/qal/digital_library.py:131-133 | The loop ends with the `query_data` and outcome of `ApplyQuery`: the options in order, stopping at the first that raises. |
| Library.DigitalLibrary.MakeRequest | src/qal/digital_library.py:151-161 | For an adapter whose `query_data` holds only native names of its own table, the request has the provider's method and endpoint. It carries the cursor's start and page size under the paging keys, the API key, and every `query_data` entry as given. |
| Library.DigitalLibrary.ProcessResults | src/qal/digital_library.py:163-169 | The cursor moves as the provider's `process_results` specifies. The method returns the items iff that does not raise, and leaves the query state alone. |
| Library.DigitalLibrary.Batch | src/qal/digital_library.py:180-192 | The new cursor and the yielded items are those of `AfterBatch` on the response. |
| Library.DigitalLibrary.Run | src/qal/digital_library.py:205-213 | The final cursor, the items yielded and the responses used are those of `Drive`. |
| Library.DigitalLibrary.EstimateBatches | src/qal/digital_library.py:194-199 | 1000 while the total is not positive. Otherwise the fewest pages of `page_size` that cover the total. A zero page size with a known total is the division error (None). |
| Library.DigitalLibrary.EstimateBatchesLeft | src/qal/digital_library.py:201-203 | Fails exactly on a zero page size. Otherwise all the batches minus `ceil(start / page_size)`, with no clamping. |
| Ieee.OptionTableFacts | src/qal/ieeexplore.py:60-71 | Every IEEE option is a key translation, for example `title` to `article_title`, `issue` to `is_number` and `year` to `publication_year`. `volume` is unknown. |
| Ieee.ParametersShape | src/qal/ieeexplore.py:73-80 | The parameters are `start_record`, `max_results`, `format=json` and `apikey` plus every query key, and a query key wins. |
| Ieee.Identifier | src/qal/ieeexplore.py:89-92 | The identifier is the DOI when present, else the article number. |
| Ieee.RecordsCount | src/qal/ieeexplore.py:86-121 | A page yields one record per author of each conference paper, one per journal paper, and nothing for other content types. |
| Ieee.RecordsIdentified | src/qal/ieeexplore.py:86-121 | Every record carries the identifier of some article on the page. |
| Ieee.ConferenceDuplicated | src/qal/ieeexplore.py:93-106 | A conference paper gives one record per author, each with the same identifier and the complete author list. |
| Ieee.Process | src/qal/ieeexplore.py:82-121 | The total is stored and `start` advances by the number of articles before any record is built, so articles without a record count too. The records are returned unless a lookup raises. |
| Ieee.RaisePropagates | src/qal/ieeexplore.py:87-121 | Once an article raises, the whole page raises. |
| Ieee.BuildRecords | src/qal/ieeexplore.py:86-121 | The nested record loops compute the page's records or the exception. |
| Springer.OptionTableFacts | src/qal/springer.py:55-63 | Only `query_text` is understood, mapped to `q`, and every other name is unknown. |
| Springer.ParametersShape | src/qal/springer.py:65-71 | The parameters are `s`, `p` and `api_key` plus every query key, and a query key wins. |
| Springer.ConferenceOf | src/qal/springer.py:97-106 | A conference paper's record has the four-character year, its publication name as book title, and the sanitised name as venue. |
| Springer.BuiltRaisesIffArticle | src/qal/springer.py:78-107 | The record loop raises exactly when the page holds an Article record. |
| Springer.Process | src/qal/springer.py:73-108 | An empty `result` raises before anything moves. Otherwise the reported total is stored and `start` advances by the reported `recordsDisplayed`. The method raises iff an Article is present, else it returns the raw records. |
| Springer.ArticleSetsError | src/qal/springer.py:73-96 | Through `batch`, an Article on the page leaves the cursor moved, `error` set and nothing yielded. |
| Springer.BuildRecords | src/qal/springer.py:77-107 | The record loop computes the built list or the exception. |
| ScienceDirect.OptionTableFacts | src/qal/science_direct.py:39-52 | Every option is a key translation, for example `query_text` to `qs`, `year` to `date` and `publication_title` to `pub`. `author` is unknown. |
| ScienceDirect.HeadersShape | src/qal/science_direct.py:86-89 | The headers are exactly `Accept: application/json` and `X-ELS-APIKey`. |
| ScienceDirect.BodyShape | src/qal/science_direct.py:91-96 | The body is `offset` and `show` plus every query key, and a query key wins. |
| ScienceDirect.RecordsCount | src/qal/science_direct.py:67-84 | One record per result with authors, so never more records than results. |
| ScienceDirect.RecordsFaithful | src/qal/science_direct.py:68-83 | Every record is the Article of a result with authors: its DOI, its source title as journal, the first four characters of its date, and no volume, issue, abstract or pages. |
| ScienceDirect.Process | src/qal/science_direct.py:54-84 | A rate limit returns nothing and changes nothing. Any other error envelope sets `error` and leaves the cursor in place. A page stores the total and advances `start` by every result, skipped ones included. |
| ScienceDirect.RateLimitKeepsCellActive | src/qal/science_direct.py:55-59 | A rate-limited batch leaves an active cursor unchanged and still active. |
| ScienceDirect.BuildRecords | src/qal/science_direct.py:67-84 | The record loop skips results without authors and builds one Article for each of the others. |
| Types.AddTerms | src/qal/types.py:37-41 | The first add for a source makes a one-element list. A later add appends at the end, so the length grows by one and duplicates are kept. Other sources are unchanged. |
| Types.AddTermsKeepsHistory | src/qal/types.py:37-41 | Provenance is append-only: every earlier list is a prefix of the new one. |
| Types.YearOf | src/qal/science_direct.py:76 | `date[:4]` keeps at most four characters and is a prefix of the date. |
| Types.Bib.Venue | src/qal/types.py:64-121 | Article gives its journal, Book its title and BookChapter its book title. Conference gives its conference when it is non-empty, else its book title. |
| Types.AsDict | src/qal/types.py:43-128 | The keys are the base fields plus each variant's own fields, and every key holds its field's value: the strings as they are, and `volume`, `issue`, `abstract` and `pages` as their value or None. `Book.asdict` yields None. |
| Types.Publication.constructor | src/qal/types.py:30-35 | A new publication has empty provenance. |
| Types.Publication.AddSearchTerms | src/qal/types.py:37-41 | The provenance map becomes `AddTerms` of the old one. |
| Store.ResultsStore.constructor | src/qal/results_store.py:34-42 | A store without a file starts empty, with the counter at zero. |
| Store.ResultsStore.Restore | src/qal/results_store.py:34-42 | A store read from a saved file holds the loaded records, with the counter at zero. |
| Store.ResultsStore.AddItem | src/qal/results_store.py:53-61 | The key set gains the item's identifier. The first record stored under an identifier is kept. Provenance is appended to the kept record exactly when source and query are both given. No other entry or provenance changes, so the contents become `Added` of the old ones. The counter rises only when `saviness > 0`, and a save happens exactly when it reaches a multiple of `saviness`. Every key maps to a record with that identifier. |
| Store.ResultsStore.Record | src/qal/results_store.py:53-57 | The contents part of `add_item`: insertion when the identifier is absent, then the provenance append, which together give `Added`. |
| Store.AddedInSteps | src/qal/results_store.py:53-57 | Inserting a record when its identifier is absent, then appending the query to the kept record's provenance, is `Added`. |
| Store.ResultsStore.Insert | src/qal/results_store.py:54-55 | Inserts under the identifier only when it is absent. |
| Store.ResultsStore.Tick | src/qal/results_store.py:58-61 | The save cadence: with `saviness` 0, nothing is counted and nothing is saved. |
| Store.ResultsStore.Get | src/qal/results_store.py:63-64 | `get` always yields None. |
| Registry.Register | src/qal/__init__.py:39-45 | Every alias maps to the value, and every other entry is kept. |
| Registry.TablesAgree | src/qal/__init__.py:39-45 | The class table and the variable table have the same aliases, and each alias names the class and variable of one registration. |
| Registry.LastRegistrationWins | src/qal/__init__.py:39-45 | An alias maps to the class and variable of the last registration naming it. |
| Registry.RegistrationsDistinct | src/qal/__init__.py:72-92 | The 5 Springer, 5 IEEE and 3 Science Direct aliases are distinct, and each registration has its own non-empty variable. |
| Registry.KeyResolution | src/qal/__init__.py:47-54 | A truthy explicit key is returned as given. Otherwise a registered alias reads only its own variable, with no fallback even when it is unset. |
| Registry.UnknownNameFallsBack | src/qal/__init__.py:47-54 | A name no registration lists is not registered, and it reads `LIBRARY_API_KEY`. |
| Registry.Registry.Load | src/qal/__init__.py:72-92 | Importing the package leaves both tables as the three registrations make them, in order. |
| Registry.Registry.RegisterApi | src/qal/__init__.py:39-45 | Both tables are updated as `Register` specifies. |
| Registry.Registry.GetEnvVar | src/qal/__init__.py:47-54 | A truthy explicit key is returned as given. Otherwise an alias with a non-empty registered variable reads that variable from the environment, and any other name reads `LIBRARY_API_KEY`. An unset variable gives None. |
| Registry.Registry.GetEnvVarName | src/qal/__init__.py:57-59 | The registered variable name, or None for an unregistered alias. |
| Registry.Registry.MakeApi | src/qal/__init__.py:62-69 | None exactly for an unregistered alias. Otherwise a fresh adapter of the registered class with its default page size and start 1. |
| AutoQuery.FlagRow | src/qal/autoquery.py:143-153 | Seeded flag i of every row is the enabled flag of site i, which is indexed by the query. |
| AutoQuery.SeedSpec | src/qal/autoquery.py:136-158 | Seeding fails with IndexError exactly when there are sites but more queries than sites. Otherwise every cell is empty with ten batches, `max_batches` is ten, and cell (j, i) has site i's flag. |
| AutoQuery.SeedCounted | src/qal/autoquery.py:140-153 | After seeding, `incomplete` equals the number of true flags. |
| AutoQuery.SeedMixUpExample | src/qal/autoquery.py:143-153 | With one enabled and one disabled site, the disabled site's row gets a true flag, and both rows count as incomplete. |
| AutoQuery.RestoreOverridesPlan | src/qal/autoquery.py:70-75 | A saved cell overrides the plan's start and page size. |
| AutoQuery.WriteBackRoundTrip | src/qal/autoquery.py:186-188 | A written-back cell restores to the cursor it came from, the error flag aside. |
| AutoQuery.MaxRuns | src/qal/autoquery.py:78-79 | `max_runs` returns None. |
| AutoQuery.CellUpdate | src/qal/autoquery.py:186-194 | After a page, the cell holds the adapter's total, start, page size, `has_results` and estimate, and every other cell is unchanged. `max_batches` becomes None. `incomplete` drops by one exactly when the flag is now false. |
| AutoQuery.CellUpdateKeepsCount | src/qal/autoquery.py:189-194 | Processing a cell whose flag was true keeps `incomplete` equal to the number of true flags. |
| AutoQuery.ScheduleCells | src/qal/autoquery.py:165-173 | A sweep's cells are exactly those of enabled sites whose flag is true. They come in site-major order, each once. |
| AutoQuery.RunCellsSnoc | src/qal/autoquery.py:171-173 | One more cell after a run that reached a world is that cell's step from that world. |
| AutoQuery.RunCellsAppend | src/qal/autoquery.py:165-173 | Running two lists of cells one after the other is running the second from where the first ended, unless the first crashed. |
| AutoQuery.RunCellsCrashed | src/qal/autoquery.py:165-195 | Once a run of cells crashes, running more cells after it gives the same crash: an exception ends `batch_across`. |
| AutoQuery.RowSchedulePrefix | src/qal/autoquery.py:171-173 | A row's schedule up to a query is a prefix of the whole row's schedule. |
| AutoQuery.SchedulePrefix | src/qal/autoquery.py:165-173 | The sweep's schedule over the first sites is a prefix of its schedule over more sites. |
| AutoQuery.RowCrashed | src/qal/autoquery.py:171-195 | A crash within a row's first queries is the crash of the whole row. |
| AutoQuery.ScheduleRun | src/qal/autoquery.py:165-171 | One more site of a sweep runs its row's cells from where the earlier sites' cells ended, or nothing when the site is disabled. |
| AutoQuery.SweepCrashed | src/qal/autoquery.py:165-195 | A crash among the first sites of a sweep is the crash of the whole sweep. |
| AutoQuery.SweepsCrashed | src/qal/autoquery.py:197-201 | Once a sweep crashes, more sweeps give the same crash. |
| AutoQuery.SeedStalls | src/qal/autoquery.py:143-153 | A seeded status is counted, and when a disabled site sits at the index of an enabled one, a disabled site's row carries a true flag. |
| AutoQuery.Orchestrator.constructor | src/qal/autoquery.py:119-131 | The plan, the loaded status and the store, with no request sent and nothing written. |
| AutoQuery.Orchestrator.SeedRow | src/qal/autoquery.py:143-154 | One row of seeding: empty cells, ten batches, `FlagRow`, and the number of false flags. It fails once the query index passes the last site. |
| AutoQuery.Orchestrator.Seed | src/qal/autoquery.py:136-158 | The seeding loops produce `SeedSpec`, or fail with nothing changed. |
| AutoQuery.Orchestrator.Prepare | src/qal/autoquery.py:136-160 | Seeds when no status was loaded and refuses a status that does not fit the plan. The status it writes is the one it keeps. |
| AutoQuery.Orchestrator.MakeApiObject | src/qal/autoquery.py:48-57 | The registry's adapter with the resolved key. The plan's start and page size override the defaults, and its options are merged in. None for an unknown site. |
| AutoQuery.Orchestrator.AddItems | src/qal/autoquery.py:182-184 | Succeeds iff every item is a publication. A raw record crashes with `RawRecordItem`. On success the contents are `AddAll` of the old ones: every publication is added in order under the site's name and the query. The keys become the old keys plus the page's identifiers, and the store (saviness 1) saves once per item. |
| AutoQuery.Orchestrator.AddPublication | src/qal/autoquery.py:183-184 | One `add_item` with the site's name and the query on a store with saviness 1: the contents become `Added` of the old ones, and the store saves once more. |
| AutoQuery.AddAllKeys | src/qal/autoquery.py:182-184 | Adding a page keeps every identifier and adds exactly the identifiers of its publications. |
| AutoQuery.AddAllKeepsStored | src/qal/results_store.py:53-55 | A record already in the store is never replaced by a page's publication. |
| AutoQuery.AddAllFirstWins | src/qal/results_store.py:53-55 | For an identifier new to the store, the record kept is the page's first publication carrying it. |
| AutoQuery.AddAllProvenance | src/qal/results_store.py:56-57 | An identifier that `n` of the page's publications carry gains the query `n` times under the site's name, duplicates kept. Its lists for other sources are unchanged. |
| AutoQuery.Orchestrator.Configure | src/qal/autoquery.py:174-179 | The adapter for a cell: `make_api_object`, then the query's options as `ApplyQuery` gives them, then the saved cell over the plan's cursor. |
| AutoQuery.Orchestrator.FetchPage | src/qal/autoquery.py:173-181 | Crashes on an unknown site or a rejected query, with no request counted. Otherwise the cursor and items of one batch of the configured adapter on the network's response, as `Paged` and `PageItems` give them. A request is counted only when results were expected. Either way the outcome is `CellStep`'s: the crash, or the write-back of this page. |
| AutoQuery.Orchestrator.Fetch | src/qal/autoquery.py:179-181 | The configured adapter's request is sent as the `requests`-th. Its cursor moves from the restored cell as `Paged` gives, and the items are `PageItems`. A request is counted only when results were expected. |
| AutoQuery.Orchestrator.WriteBack | src/qal/autoquery.py:182-195 | Stores the items, so the contents become `AddAll` of the old ones, then writes the cell as `CellUpdate` gives it and appends the new status to the written ones. Crashes on a raw record or a zero page size, writing nothing. The outcome is `WrittenBack` of the world before, and a flagged cell keeps `incomplete` exact. |
| AutoQuery.Orchestrator.SetCell | src/qal/autoquery.py:186-195 | The cell is written as `CellUpdate` gives it and the new status is appended to the written ones. A flagged cell keeps `incomplete` equal to the number of true flags. |
| AutoQuery.Orchestrator.ProcessCell | src/qal/autoquery.py:173-195 | One flagged cell from start to end. On success the adapter restored from the saved cell sends one request when results are expected, and its cursor moves as `Paged` gives. The cell is then written back by `CellUpdate` and the status written out. On a crash the status and the written statuses are unchanged. The step is `CellStep` of the world before it: the crash, or the world reached. |
| AutoQuery.Orchestrator.VisitCell | src/qal/autoquery.py:171-173 | A flagged cell is processed: the step is `CellStep` of the world before, and on success the cell is saved and one more status is written. An unflagged cell leaves the whole world as it was. Only that cell changes, and the count stays exact. |
| AutoQuery.Orchestrator.RowStep | src/qal/autoquery.py:171-195 | One query of a row: the cell is visited, and cells not yet reached stay as at the row's start. Run one `CellStep` after another from the row's start (`RunCells`), the row's flagged cells up to this query reach exactly the world after this visit, or end in its crash, and such a crash is the crash of the whole row. On success the trace and the written statuses grow by the row's schedule up to this query, and every cell of it is saved. |
| AutoQuery.Orchestrator.SweepRow | src/qal/autoquery.py:171-195 | An enabled site's flagged cells are processed in query order, as `RowSchedule` lists them. `RunCells` over those cells, each a `CellStep` from the world the previous one reached, gives exactly the world after the row: status, requests, written statuses, store contents and saves. It gives the row's crash when one cell crashes. On success each such cell is saved, and no other row changes. |
| AutoQuery.Orchestrator.SweepSite | src/qal/autoquery.py:165-195 | One site of `batch_across`: a disabled site is skipped and an enabled site's row is swept. `RunCells` over the sweep's schedule up to this site reaches exactly the world after it. A crash here is the crash of the whole sweep. The sites not yet reached stay as at the sweep's start. |
| AutoQuery.Orchestrator.Sweep | src/qal/autoquery.py:162-195 | `batch_across` processes exactly `Schedule`'s cells, in order. `RunCells` over `SweepCells` (the cells its starting flags schedule), each a `CellStep`, gives exactly the world after the sweep: status, requests, written statuses, store contents and saves. It gives the sweep's crash when one cell crashes. On success every scheduled cell is saved. Disabled sites and unflagged cells are untouched, and `incomplete` stays equal to the number of true flags. |
| AutoQuery.Orchestrator.RunFixed | src/qal/autoquery.py:197-201 | Exactly the requested number of sweeps unless one crashes: `Sweeps` of the sweep function, each sweep from the world the last one reached, gives exactly the world at the end, or the first crash. A disabled site's cells never change. |
| AutoQuery.Orchestrator.RunToCompletion | src/qal/autoquery.py:202-215 | Sweeps while `incomplete` is positive and reports whether it reached zero. `SweepsUntilDone` of the sweep function gives exactly the world at the end, or the first crash. A flagged cell of a disabled site keeps it from ever finishing. |
| AutoQuery.Orchestrator.RunBatches | src/qal/autoquery.py:197-215 | `Sweeps` for a positive batch count and `SweepsUntilDone` otherwise give exactly the world at the end, or the first crash. Only the loop to completion can report that it finished. |
| AutoQuery.Orchestrator.Start | src/qal/autoquery.py:136-160 | `Prepare`, and the world the sweeps start from: the prepared status, written once, with the requests, the store contents and the saves as they were. A seeded status is counted. |
| AutoQuery.Orchestrator.RunProgram | src/qal/autoquery.py:136-215 | After preparing, either the fixed number of sweeps or the loop to completion. The cell step is `Stepper` and the sweep is `Sweeper` of it, and the run from the prepared world is `Sweeps` or `SweepsUntilDone` of that sweep. A seeded status stays counted. When some disabled site sits at the index of an enabled one, the unbounded loop never finishes. |
| Draft.ConfigFacts | src/scrape_acad_library/ieeexplore.py:7-37 | Table entries such as `issue_number` to `is_number`, and each configuration's cursor and key names. |
| Draft.DraftProcess | src/scrape_acad_library/ieeexplore.py:39-42 | The base class raises. IEEE stores `total_records`, advances by the article count and returns the raw articles. Science Direct stores the total, then raises when `entry` is missing at the top level. Springer raises on an empty `result`, else advances by `recordsDisplayed` and returns the raw records. |
| Draft.BaseRunErrors | src/scrape_acad_library/digital_library.py:66-85 | The base class's run sets `error` after its first request and yields nothing. |
| Draft.ElsevierRunStopsAtFirstPage | src/scrape_acad_library/science_direct.py:20-23 | The draft Science Direct run stores the total, sets `error` and yields nothing on its first page. |
| Draft.RequestData | src/scrape_acad_library/digital_library.py:52-61 | The key, start and page size, then the additional parameters, then `query_data`, each later entry overriding an earlier one. |
| Draft.CopyEntries | src/scrape_acad_library/digital_library.py:58-61 | The copy loop gives the merge: copied entries win and the others stay. |
| Draft.ProviderRequestsCarryCursor | src/scrape_acad_library/digital_library.py:53-61 | For the three provider configurations, the request always carries the adapter's start, page size and key. |
| Draft.NoCursorKeyIsNative | src/scrape_acad_library/springer.py:10-17 | No configuration's cursor or key name is a native name or an additional parameter. |
| Draft.DraftLibrary.constructor | src/scrape_acad_library/digital_library.py:11-36 | The configuration, the key, the given start and page size, total -1, no error and empty `query_data`. |
| Draft.DraftLibrary.SetQueryOption | src/scrape_acad_library/digital_library.py:38-47 | `start` and `num_results` set the cursor. A table name writes its native key. Any other name raises and changes nothing. |
| Draft.DraftLibrary.BuildRequestData | src/scrape_acad_library/digital_library.py:52-61 | The parameters built are `RequestData` of the adapter's state. |
| Draft.DraftLibrary.ProcessResults | src/scrape_acad_library/springer.py:19-22 | The cursor moves as `DraftProcess` specifies, and the raw records come back iff it does not raise. |
| Draft.DraftLibrary.Run | src/scrape_acad_library/digital_library.py:77-85 | The final cursor, the items and the responses used are those of `Drive` with the draft step. |
| Draft.DraftLastRegistrationWins | src/scrape_acad_library/__init__.py:6-9 | An alias maps to the class of the last registration naming it. |
| Draft.DraftOnlyListedAliases | src/scrape_acad_library/__init__.py:11-17 | An alias no registration lists is absent, so `make_api` gives None for it. |
| Draft.DraftRegistrationsDistinct | src/scrape_acad_library/__init__.py:19-39 | The draft aliases are distinct and are the same lists as the settled package's. |
| Draft.DraftRegistry.Load | src/scrape_acad_library/__init__.py:19-39 | Importing the draft package leaves the table as the three registrations make it. |
| Draft.DraftRegistry.RegisterApi | src/scrape_acad_library/__init__.py:6-9 | Every alias maps to the class, and the other entries are kept. |
| Draft.DraftRegistry.MakeApi | src/scrape_acad_library/__init__.py:11-17 | None exactly for an unregistered alias. Otherwise a fresh adapter starting at 1, with 50 results (IEEE, Springer) or the base default of 10 (Science Direct). |
| DraftTypes.DraftPublication.constructor | src/scrape_acad_library/types/__init__.py:7-12 | A new publication has empty provenance. |
| DraftTypes.DraftPublication.AddSearchTerms | src/scrape_acad_library/types/__init__.py:14-18 | The first add for a source makes a one-element list. A repeated source raises and changes nothing. |
| DraftTypes.DraftPublication.Venue | src/scrape_acad_library/types/__init__.py:33-66 | The same venue rule per variant as the settled package. |

## Left out

- HTTP transport and retries. The request and the exponential back-off are replaced by the `network` oracle, which gives a decoded body or a failure. Only the request's contents are modelled.
- The draft sends every request with `requests.get`, whatever its request type. The draft request is modelled by its parameter map only.
- `sanitize_venue` of IEEE Xplore and Springer Nature is a chain of regular-expression substitutions. It is a function parameter here, with nothing assumed about it.
- `sleep(60)` on a Science Direct rate limit. Time has no counterpart in the model.
- Logging, progress bars, traceback printing, the command line, and `describe`/`describe_options`. These are text output only.
- File I/O and serialisation. This covers reading the plan and status files, the `.bak` rotation of `write_status` and `save`, and JSON and jsonpickle encoding. The written statuses are kept as a sequence, and saves as a counter.
- `ResultsStore.__iter__`. It iterates over the dictionary's keys, which are `data.Keys` here.
- Store.ResultsStore.Restore: requires that every loaded key is the identifier of its record. That is true of any file an earlier store saved, but a hand-edited file is not modelled.
- Missing keys and null values in a provider's JSON. The body datatypes give every key the code reads a value, with these exceptions:
  - IEEE Xplore's `doi`, `article_number` and `volume` are None when the key is absent. Reading an absent `article_number` or `volume` raises, as in the source. A key that is present but null is not modelled: in the source a null `doi` becomes the identifier None (src/qal/ieeexplore.py:89-90), and a null `volume` still gives an Article (src/qal/ieeexplore.py:116);
  - Science Direct's `authors` is None when the JSON holds null, and such a result is skipped. An absent `authors` key raises a KeyError in the source (src/qal/science_direct.py:72), which is not modelled.
- The KeyError of any other missing key, which `batch` turns into `error`, is not modelled. These keys are always present in the model:
  - IEEE Xplore: `total_records`, `articles`, `content_type`, `title`, `authors`, `full_name`, `publication_year` and `publication_title`;
  - Science Direct: `error_code` inside `error-response`, `resultsFound`, `results`, `doi`, `title`, `name`, `publicationDate` and `sourceTitle`. In the source, a missing key inside a result raises after `start` has moved;
  - Springer Nature: `result`, `total`, `recordsDisplayed`, `records`, `contentType`, `doi`, `title`, `creators`, `creator`, `publicationDate` and `publicationName`. The Article branch's `volume` and `number` are not in the datatype at all, since that branch raises in any case.
- ScienceDirect.Process: its contract that a page returns publications holds for every body of the datatype's shape. A result lacking one of the keys above raises in the source instead.
- `ScienceDirect.Body` is the body's dictionary before `json.dumps`. The JSON text itself is not modelled.
- Query values are strings (`Types.Query`). A plan's query values are JSON and may be numbers (`"year": 2020`), which the source passes on unchanged into the request parameters and Science Direct's `json.dumps` body (src/qal/science_direct.py:91-96). The model carries only string values, so a number's JSON type in a request is not captured. No proved property depends on the value's type.
- `ceil(a / b)` goes through a float in the source. The model divides exactly, which differs only beyond the precision of a double.
- Integers are unbounded, like Python's.
- The Science Direct Article fields `volume`, `issue`, `abstract` and `pages` are None in every record, and the model's records carry None there.
- AutoQuery.Orchestrator.Prepare: refuses, up front, a loaded status whose grids do not have exactly one cell per site and query. The source reads the grids only at the cells a sweep visits, and skips a disabled site before indexing its row (src/qal/autoquery.py:165-191). So the source runs on with a grid larger than the plan, or with one that lacks only the rows of disabled sites, where the model stops with `MalformedStatus`. A grid that lacks a cell a sweep visits fails in the source at that index.
- AutoQuery.Orchestrator.RunToCompletion: takes a `fuel` bound on the number of sweeps, because the source's loop need not terminate. `finished` reports whether it stopped because nothing was incomplete.
- `max_batches` is not used anywhere in the model beyond being written, because the source only reads it for the progress bar.
- A crash leaves the in-memory status as it was at the crash, and the written file holds the last status written. The model ends the run with the crash outcome, which carries no world. So the results store's saved contents at a crash are not modelled: a `ZeroPageSize` crash in `estimate_batches_left` (src/qal/autoquery.py:191) comes after the page's items went through `add_item`, which saves on every item (src/qal/autoquery.py:182-184). The results file then already holds that page, while the status file does not record the cell as processed.
- Draft.DraftLibrary.SetQueryOption: requires an integer value for `start` and `num_results`, because the model's cursor fields are integers. The source would store any value.
- Draft.DraftRegistry.MakeApi: requires that no alias names the base class, which the three registrations guarantee.
- The draft `src/scrape_acad_library/autoquery.py` is not part of this model. It calls functions the draft package does not define.
- The draft `src/scrape_acad_library/results_store.py` is not part of this model. Its `add_item` and `save` fail on every call.
- `src/qal/main.py`, `src/scrape_acad_library/main.py`, `exceptions.py` and `setup.py` are not part of this model. They are command-line front ends, an exception class carrying the option name (the `QueryError` datatype here), and packaging.
