# spotify-data export core, in Dafny

This project models the logic of `mlinds/spotify-data`, a small Python tool that exports
a listener's data from the Spotify Web API to CSV files. It covers four pieces:

- **The three endpoint parsers** (`parse_library_json`, `parse_top_tracks_json`,
  `parse_recent_tracks_json`). Each turns one decoded JSON page into one flat record
  per element of its `items`:
  - `name`, `popularity`, `albumName`, `artistNames` (the first artist only) and
    `spotifyUri`;
  - plus `timePlayed` for recently played tracks.

  Any missing key, a non-subscriptable value or an empty `artists` list raises. The
  first failing item ends the whole page.
- **The pagination loop of `generic_download`**:
  - It requests `PREFIX + url` and parses that page.
  - While the last status is 200, it follows the page's `next` value verbatim.
  - It parses every page fetched and appends its records.
  - It writes the accumulated rows to the CSV path.

  HTTP is an abstract server: a map from URL to `Response(status, body)`. A URL the
  map lacks fails to connect.
- **The stream-history merge of `append_recent_streams`**: concatenate the stored
  history with the new batch, drop exact-duplicate rows, sort by `timePlayed`.
- **The exporters** (`download_library_tracks`, `download_recent_top`,
  `download_recent_streams`): their endpoint and output-path templates.

Modules:

- `Json`: JSON values, Python's `j[key]` and `j[0]` with the exception each one
  raises, and a `Result` type.
- `Parsers`: the three parsers, as one parser per `Kind`.
- `Pagination`:
  - `GenericDownload`, a `while` loop like the source's;
  - the specification it is proved against (`Visit`/`Continue`/`Download`);
  - lemmas about the chain of requests.
- `StreamHistory`: `Dedup`, `SortByTime` and `MergeHistory` over typed CSV rows.
- `Exporters`: the export jobs and their templates.

`download_with_req.py` holds the same three parsers: the code is the same, only the docstrings differ. Its
`generic_download` loop has the same control flow. Its exporters `download_tracks` and
`download_recent` use the same URLs and paths as `download_library_tracks` and
`download_recent_streams`. So the same members model both files, and rows below cite
whichever file states the property most directly. Two differences remain:

- `download_with_req.py` writes the CSV with its index column;
- `download_with_req.py` has no stream-history merge.

The model follows the code where the code is not what one might expect of a paginated
fetch:

- **Pages are parsed before any status check.** Each page is parsed and appended
  before `status_code == 200` is checked. A page answered with another status
  therefore still contributes its records when its body parses. The loop then ends
  normally and the file is written. When that body does not parse (a rate-limit
  reply has no `items`), the export fails with the parser's `KeyError`.
- **A missing `next` is an error.** A status-200 body without a `next` key raises
  `KeyError`; it does not end the loop.
- **A non-string `next` fails.** A `next` that is neither null nor a string is handed
  to the HTTP client, which rejects it (`InvalidUrl`).

## Model

The rows below are stated against definitions that model the source directly and carry
no contract of their own:

- `Json.Get` and `Json.First` are Python's `j[key]` and `j[0]`, with the exception each raises.
- `Pagination.NextLink` is the loop condition and the read of `next` (download_functions.py:122-125).
- `Pagination.StepFrom` is one request, its parse and its link.
- `Pagination.Visit`, `Pagination.Continue` and `Pagination.Download` are the whole fetch of download_functions.py:116-130, written recursively.
- `Parsers.ExpectedRecord` is the record a well-shaped item yields.

| member | source | states |
|---|---|---|
| Parsers.TrackRecord | download_functions.py:67-73 | Reading `name`, `popularity`, `album.name`, `artists[0].name` and `uri` succeeds exactly when the track object has that shape (a non-empty `artists` list included). The record is read straight off the JSON tree. |
| Parsers.ParseItem | download_with_req.py:45-95 | An item parses exactly when it has its endpoint's shape: `track` for library and recent items, plus `played_at` for recent ones. The record is the fields of that track, and carries `timePlayed` exactly for the recently-played endpoint. |
| Parsers.Items | download_functions.py:44 | `api_return["items"]` on a page: a non-object page raises TypeError, a page without `items` raises KeyError, and an `items` list is iterated element by element. |
| Parsers.ParseAll | download_functions.py:44-53 | Consuming the generator succeeds exactly when every item is well shaped. It then yields one record per item, in order, each the expected record of its item. Otherwise it fails with the error of the first ill-shaped item, so no item is skipped. |
| Parsers.ParsePage | download_with_req.py:44-97 | A page parses exactly when `items` can be read and every item has its parser's shape. It then gives one record per item, in order. |
| Parsers.LibraryReadsNestedTrack | download_with_req.py:46-50 | A library item parses exactly as its `track` object parses on the top-tracks endpoint. An item without `track` raises `KeyError('track')`. |
| Parsers.RecentExtendsLibrary | download_functions.py:87-97 | A recently played item parses exactly when the library parser accepts it and it has `played_at`. Its record is the library record plus `timePlayed = played_at`. A library failure is the recent parser's failure too. |
| Parsers.EmptyArtistsFailsPage | download_functions.py:49 | An item whose track has an empty `artists` list makes the whole page fail, on every endpoint. |
| Parsers.PageRecordsOfKind | download_functions.py:88-95 | Every record of a parsed page carries `timePlayed` exactly when the page comes from the recently-played endpoint. |
| Pagination.GenericDownload | download_functions.py:100-133 | The loop makes the requests that `Download` makes, in order. It writes `CsvFile(csv_out, records)` exactly when `Download` succeeds, with `Download`'s records. Otherwise it fails with `Download`'s error. |
| Pagination.AfterFollow | download_functions.py:122-130 | One turn of the loop: following `next` to a page that cannot be fetched or parsed fails with that error after requesting it. Following it to a parsed page appends that page's records and carries on from it. |
| Pagination.VisitIsChain | download_with_req.py:115-127 | A fetch from URL `u` requests a chain that starts at `u`: each request is the one the step before it follows, and the last step follows nothing. The fetch ends in that chain's outcome. |
| Pagination.ChainUnique | download_with_req.py:119-125 | The chain of requests is determined by its first URL, so the loop has exactly one possible run against a given server. |
| Pagination.VisitBoundIrrelevant | download_functions.py:122-130 | The outcome does not depend on the bound used to show that the `next` chain is finite. |
| Pagination.FollowMeansNext | download_functions.py:122-127 | The loop follows `v` from a page only when that page was answered with status 200, parsed, and its body's `next` is the string `v`. |
| Pagination.DownloadFollowsNextLinks | download_functions.py:116-127 | The first request goes to `PREFIX + url`. Every later request goes verbatim to the `next` of the page before it, and that page was answered with status 200 and parsed. |
| Pagination.DownloadOutcome | download_functions.py:119-130 | A successful fetch: every requested page was parsed, and the records are their concatenation in request order. The last page, already appended, had a status other than 200 or a null `next`. A last page with status 200 and no `next` key ends the fetch with `KeyError('next')`. |
| Pagination.DownloadRequestsEachUrlOnce | download_with_req.py:119-127 | No URL is requested twice. |
| Pagination.DownloadRecordsOfKind | download_with_req.py:117-127 | Every record of a successful fetch carries `timePlayed` exactly when the endpoint is the recently-played one. |
| Pagination.DownloadFailsOnPageWithoutItems | download_functions.py:127-129 | When the last requested page has an object body without `items`, the fetch ends with `KeyError('items')`, whatever its status. |
| Pagination.RateLimitedPageExample | download_functions.py:122-130 | Suppose the second page of a library export is a status-429 reply without `items`. Both pages are requested, and the export fails with `KeyError('items')`. |
| StreamHistory.Dedup | download_functions.py:168 | `drop_duplicates()` leaves no row twice and keeps exactly the rows it was given, never more of them. |
| StreamHistory.DedupOfDistinct | download_functions.py:168 | `drop_duplicates()` leaves rows that hold no duplicates as they are. |
| StreamHistory.SortByTime | download_functions.py:168 | `sort_values('timePlayed')` returns a permutation of its rows. |
| StreamHistory.SortByTimeSorted | download_functions.py:168 | `sort_values('timePlayed')` returns rows in ascending order of `timePlayed`, compared as Python compares strings. |
| StreamHistory.SortByTimeKeepsNoDuplicates | download_functions.py:168 | Sorting distinct rows gives distinct rows. |
| StreamHistory.SortByTimeOfSorted | download_functions.py:168 | Sorting rows that are already in order leaves them as they are. |
| StreamHistory.TextLeqTotal | download_functions.py:168 | Python's string order, which `sort_values` uses on `timePlayed`, is total. |
| StreamHistory.TextLeqTransitive | download_functions.py:168 | Python's string order is transitive. |
| StreamHistory.MergeHistory | download_functions.py:164-170 | The new history holds exactly the rows of the old history and of the batch. |
| StreamHistory.MergeHistorySpec | download_functions.py:166-169 | The new history holds no duplicate rows, is ascending by `timePlayed`, and holds exactly the union of the history rows and the batch rows. It is no longer than the two together. |
| StreamHistory.MergeHistoryIdempotent | download_functions.py:166-169 | Merging the same batch a second time leaves the history unchanged. |
| StreamHistory.MergeHistoryExample | download_functions.py:166-169 | A history holding one play and a batch repeating it plus a later play merge into the two plays, in time order. |
| Exporters.TopTracksExporter | download_functions.py:150-152 | The top-tracks job reads pages with the top-tracks parser. The contents of its URL and path are stated by `TopTracksTemplatesRoundTrip` and `DownloadRecentTop`. |
| Exporters.TopTracksTemplatesRoundTrip | download_with_req.py:140-141 | The endpoint `me/top/tracks?time_range=<t>_term` and the path `./data_out/top_tracks_<t>.csv` each give back the time range `t` they were built from. |
| Exporters.TimeRangeOfUrlInverse | download_functions.py:150 | Every URL of the form `me/top/tracks?time_range=<t>_term` is the endpoint of the top-tracks job for `t`. |
| Exporters.ExportPathsDistinct | download_functions.py:136-169 | Different time ranges write different files. No top-tracks file is `all_tracks.csv`, `recent.csv` or `streamHistory.csv`, and neither the library export nor the recent-plays export writes `streamHistory.csv`. |
| Exporters.Export | download_with_req.py:132-151 | A job makes exactly the requests of the paginated fetch, the first to `PREFIX + url`. It writes its rows to its own CSV path exactly when the paginated fetch succeeds, and otherwise fails with the fetch's error. |
| Exporters.DownloadLibraryTracks | download_functions.py:136-141 | The library export requests `PREFIX + "me/tracks"`. It writes `./data_out/all_tracks.csv` exactly when its fetch succeeds, with track records only. Its requests are those of the paginated fetch. The rows it writes are exactly the fetched records, in order, and on failure it fails with the fetch's error. |
| Exporters.DownloadRecentTop | download_functions.py:144-153 | `download_recent_top(t)` requests `PREFIX + "me/top/tracks?time_range=" + t + "_term"`. On success it writes `./data_out/top_tracks_` + t + `.csv`, with track records only. Its requests are those of the paginated fetch. The rows it writes are exactly the fetched records, in order, and on failure it fails with the fetch's error. |
| Exporters.DownloadRecentStreams | download_with_req.py:147-151 | The recent-plays export always requests `PREFIX + "me/player/recently-played?limit=10"`. On success it writes `./data_out/recent.csv`, with records that all carry `timePlayed`. Its requests are those of the paginated fetch. The rows it writes are exactly the fetched records, in order, and on failure it fails with the fetch's error. |

## Left out

- OAuth token acquisition (`get_auth_token`, the module-level `token`) and the request headers: an interactive flow inside the `spotipy` library.
- The `requests_cache` session: HTTP is the abstract map from URL to response. Caching, expiry and the SQLite backend are not modelled.
- `request.json()` decoding: bodies are already-decoded JSON values. Malformed JSON and JSON floats are not modelled.
- Logging, and the `__main__` sequence of exporters.
- CSV writing and reading:
  - an export's output is a `CsvFile(path, records)`;
  - the index column that `download_with_req.py` writes is not modelled;
  - nor is the dtype inference of `read_csv`.
- The link between the recent-plays records and the stream-history rows. The merge works on typed `StreamRow` values, as `read_csv` would give them. That `append_recent_streams` first runs `download_recent_streams` and reads both files is not modelled.
- Iterating a dict as `items`: its keys are strings, and every parser's first step on a string raises TypeError. So a non-empty dict is modelled as failing with TypeError and an empty one as yielding nothing, without modelling key order.
- Servers whose `next` links form a cycle: every fetch requires a finite chain (`VisitEnds` with a bound `n`), and nothing is claimed about the cyclic case.
- StreamHistory.SortByTime: orders rows with equal `timePlayed` by one fixed rule. pandas' default sort is not stable, so only the ascending order, the permutation and the row set stand for the source.
- StreamHistory.SortByTimeOfSorted: holds because the model's sort leaves rows with equal `timePlayed` in their input order. pandas' unstable sort may reorder such rows, so for the source only the order by `timePlayed` and the row set carry over.
- StreamHistory.MergeHistoryIdempotent: states equality of the whole sequence for this model. For the source only the row set and its order by `timePlayed` carry over, since pandas may order rows with equal `timePlayed` differently on each run.
