# URL pipeline bookkeeping, modelled in Dafny

The repository is a small batch pipeline. It reads URLs from a CSV file into `URLMetadata` records
and strips tracking parameters from each URL. It then classifies each URL as a `document` or a
`page` from a HEAD request, downloads it with a downloader shared by every URL of its kind, and
extracts its text with a handler shared by every file of its extension. Whether a URL may be
fetched is decided through a lazily filled robots.txt cache.

The model covers the bookkeeping of that pipeline: which record fields are written, when and with
what. The network, the parsers, `langdetect`, `mimetypes`, `urlparse`, the clock and the UUID
generator become inputs. Both versions of the entry module are modelled: `src/main.py` and the
earlier `main.py`. Their extraction differs, and `src/main.py` adds the `_debug$` tracking pattern.
Otherwise they share one model. The two copies of `can_fetch` are identical and share one model.

Modules, in dependency order:

- `Wrappers`: `Option` (Python's `None`) and `Result`, whose `Raised` case is an exception that
  escapes.
- `Text`: the `str` operations the code relies on (`split`, `join`, `strip`, `lower`).
- `Urls`: parsed URLs, `urlunparse`, and the robots cache's origin key.
- `Paths`: `pathlib` joining.
- `Normalize`: `clear_urls_of_garbage`'s query filter, with both pattern sets.
- `Extraction`: `extract_urls_from_csv_file`, in both its line-by-line and its `csv.reader` form.
- `Classify`: the decision of `get_content_type`.
- `Schemas`: the `URLMetadata` class and the timestamp side effect of `__setattr__`.
- `Robots`: the `_robots_cache` class and `can_fetch`.
- `Downloaders`: the `ContentDownloader` class, with the `_download` variants as a constant.
- `Handlers`: the `ContentHandler` class, per-format text assembly and metadata.
- `Runs`: the shape shared by both record loops. It is a sequence of steps applied in order, with
  lemmas that carry a property, or a settled state, through the rest of a run.
- `Pipeline` (`clear_urls_of_garbage`, `download_files`) and `Processing` (`handle_files`): each
  loop over the records is proved against a step function on the records' values. The
  consequences of the shared downloader and handler instances are then stated over whole runs.

Behaviours of the code that a reader might not expect, each stated by the member named:

- `handle_files` skips only `failed_download` records. A `skipped_robots` record is still handled
  and gets the handler's status (`Processing.SkippedRobotsRecordIsProcessed`), so a
  `skipped_robots` status can later become `success`.
- A robots refusal does not stop the download (`Downloaders.AfterDownload`).
- A downloader's or handler's status is never set back to `success`, and the instance is shared.
  After one failure or robots refusal, every later record of the same kind or extension is
  reported as failed or skipped
  (`Pipeline.DownloaderFailureIsSticky`, `Processing.HandlerFailureIsSticky`), so a record's
  outcome depends on the records before it.
- `error_message`, `url`, `file_size_bytes` and `metadata` keep the previous call's values when a
  call does not overwrite them (`Downloaders.AfterDownload`, `Handlers.AfterHandle`). A
  `failed_download` or `skipped_robots` record can therefore carry an earlier record's error
  message although its own transfer succeeded. A record reported as `success` always has the
  empty message, because only an `except` branch writes a message and it also writes a failure
  status (`Pipeline.SuccessfulDownloadHasNoMessage`, `Processing.SuccessfulHandlingHasNoMessage`).
- An unclassified URL, and a file with an unregistered extension, get a failure status and no
  error message (`Pipeline.DownloadRecord`, `Processing.HandleRecordCases`), so such a failure
  records no cause.
- A HEAD response with no `Content-Type`, for a URL `mimetypes` cannot guess, hands `None` to
  `guess_extension`. The resulting `AttributeError` ends the whole `download_files` run
  (`Classify.ContentType`, `Pipeline.AbortedRunIsFinal`).
- A record without a raw file path that reaches `handle_files` makes `split` raise and ends that
  run (`Processing.HandleRecordCases`, `Processing.AbortedHandlingIsFinal`).
- An origin whose robots.txt raised `URLError` is cached as `None`. That counts as a miss, so it
  is read again on every call (`Robots.UnreachableOriginIsReread`).
- `parse_qsl` runs with its defaults, so query pairs with a blank value are dropped too
  (`Normalize.CleanQueryIsKeptOnly`).

## Model

| member | source | states |
|---|---|---|
| Text.Split | src/main.py:51 | `str.split` on one character: at least one piece, and no piece contains the separator |
| Text.JoinSplit | src/main.py:51 | joining the pieces of a split with the separator gives the string back |
| Text.SplitJoin | src/handlers.py:77 | splitting a join of separator-free pieces gives the pieces back |
| Text.AfterLast | src/main.py:144 | `s.split(c)[-1]`: a suffix of `s` without `c`, which is all of `s` or is preceded by `c` |
| Text.AfterLastIsLastPiece | src/main.py:144 | `AfterLast` is the last piece of `Split` |
| Text.BeforeFirst | src/main.py:90 | `s.split(c)[0]`: a prefix of `s` without `c`, which is all of `s` or is followed by `c` |
| Text.BeforeFirstIsFirstPiece | src/main.py:90 | `BeforeFirst` is the first piece of `Split` |
| Text.Strip | src/main.py:90 | `strip`: neither end is a stripped character, no character is added, and the result is no longer |
| Text.StripTrims | src/main.py:90 | `strip` removes a run of stripped characters from each end and nothing else: the result is a slice of the input, and every character before and after that slice is a stripped character |
| Text.StripPadded | src/main.py:90 | padding of stripped characters around a text whose ends are not stripped characters is removed, and the text comes back unchanged |
| Text.StripIdempotent | src/main.py:90 | stripping twice is stripping once |
| Text.Lower | src/main.py:90 | `lower` on ASCII letters: same length, each upper-case letter becomes its lower-case letter 32 code points above, every other character is kept |
| Urls.EncodeQuery | src/main.py:71 | `urlencode` gives the empty query exactly for no pairs |
| Urls.EncodeQueryDecodes | src/main.py:71 | for keys and values without `&` or `=`, the query splits on `&` into one piece per pair, in order, and each piece splits on `=` into that pair's key and value |
| Urls.RobotsUrl | src/robotparser.py:18-22 | the policy URL is exactly the origin key `scheme://netloc` followed by `/robots.txt` |
| Urls.SameOrigin | src/robotparser.py:17-19 | two URLs have the same cache key exactly when scheme and netloc agree |
| Urls.RenderStart | src/main.py:72 | `urlunparse` starts with the scheme and `:`, followed by `//` and the network location when there is one |
| Urls.RenderEnd | src/main.py:72 | `urlunparse` ends with `#` and the fragment when there is one, and otherwise with `?` and the encoded query when the query is non-empty |
| Paths.JoinPathLastComponent | src/downloaders.py:58 | `Path(folder) / name` ends in component `name`, whatever the folder |
| Normalize.ParseQsl | src/main.py:70 | `parse_qsl` never yields more pairs than the query holds |
| Normalize.ParseQslMembers | src/main.py:70 | `parse_qsl` with its defaults keeps exactly the pairs with a non-blank value |
| Normalize.DropTracking | src/main.py:70 | the comprehension never yields more pairs than it is given |
| Normalize.DropTrackingMembers | src/main.py:70 | the comprehension keeps exactly the pairs whose key no pattern matches |
| Normalize.CleanUrl | src/main.py:69-72 | only the query changes: scheme, netloc, path, params and fragment are kept |
| Normalize.CleanQueryIsKeptOnly | src/main.py:65-70 | the cleaned query equals an independent one-pass filter, and holds a pair exactly when the pair was in the query with a non-blank value and an untracked key |
| Normalize.CleanQuery | src/main.py:65-70 | the cleaned query is no longer than the parsed one, and every pair in it was in the query and has a key no tracking pattern matches |
| Normalize.CleanUrlKeeps | src/main.py:69-72 | the cleaned URL's query is that filter of the original query, with membership in both directions |
| Normalize.CleanQuerySingle | src/main.py:70 | a single pair survives exactly when it is kept |
| Normalize.CleanQueryAppend | src/main.py:70 | order is preserved: cleaning a concatenation concatenates the cleaned parts |
| Normalize.ParseQslAppend | src/main.py:70 | `parse_qsl` distributes over concatenation |
| Normalize.DropTrackingAppend | src/main.py:70 | the comprehension distributes over concatenation |
| Normalize.CleanQueryIdempotent | src/main.py:68-72 | a second pass over a cleaned query removes nothing |
| Normalize.CleanUrlIdempotent | src/main.py:68-72 | cleaning a URL twice is cleaning it once |
| Normalize.TrackingByAlternatives | src/main.py:65-66 | `pattern.search` matches exactly when one alternative of the expression matches |
| Normalize.SrcTrackingKeys | src/main.py:65-66 | the current expression matches keys starting with `utm_` or `cache_`, or ending (before an optional final newline) with `clid` or `_debug` |
| Normalize.RootTrackingKeys | main.py:46-47 | the earlier expression matches keys starting with `utm_` or `cache_`, or ending with `clid` |
| Normalize.DebugKeysDifferBetweenVersions | main.py:46 | a key that only ends in `_debug` is dropped by the current pipeline and kept by the earlier one |
| Normalize.ReportUrlExample | src/main.py:65-72 | a report URL with `utm_source` and `id` keeps only `id` |
| Classify.MediaType | src/main.py:90 | the media type has no `;`, no upper-case ASCII letter and no surrounding whitespace |
| Classify.MediaTypeIgnoresParameters | src/main.py:90 | parameters after the first `;` do not change the media type |
| Classify.MediaTypeOfPadded | src/main.py:90 | a header made of whitespace, a type, whitespace, `;` and parameters has as media type that type lower-cased |
| Classify.SelectedType | src/main.py:85-90 | there is no type exactly when the header is missing or empty and there is no guess; without a header the guess is used, otherwise the header's media type |
| Classify.MediaTypeOfNormal | src/main.py:90 | a type without `;`, upper case or surrounding whitespace is its own media type |
| Classify.MediaTypeIdempotent | src/main.py:90 | selecting the media type of a media type gives it back |
| Classify.GuessExtension | src/main.py:91 | an extension is found exactly when the lower-cased type is in the table, and it is the table's entry |
| Classify.KindOf | src/main.py:93-94 | classified exactly when the extension is non-empty; `page` exactly for `.html`, `document` otherwise |
| Classify.ContentType | src/main.py:75-95 | a failed HEAD gives the empty pair; the call raises exactly when there is no header and no guess; a header is classified by its media type, otherwise the guess; a classification has a non-empty extension, and `page` exactly for `.html` |
| Classify.ParametersDoNotChangeKind | src/main.py:85-91 | a `Content-Type` with parameters classifies like its bare media type |
| Classify.PdfExample | src/main.py:85-94 | `application/pdf`, with any parameters, classifies as a `.pdf` document |
| Schemas.NewRecord | schemas.py:30-48 | a new record has status `success`, the given id and source URL, and every other field `None` |
| Schemas.WithRawFilePath | schemas.py:50-54 | writing `raw_file_path` stores it; a truthy path stamps the clock reading, a falsy one keeps the old timestamp; nothing else changes |
| Schemas.NoTimestampWithoutPath | schemas.py:52 | a fresh record given no path, or an empty one, still has no timestamp |
| Schemas.UrlMetadata.constructor | schemas.py:31-48 | the object's fields are those of a new record |
| Schemas.UrlMetadata.SetRawFilePath | schemas.py:50-54 | `__setattr__("raw_file_path", ...)` leaves the object in the state `WithRawFilePath` describes |
| Robots.Decision | src/robotparser.py:17-34 | a hit answers with the cached parser; on a miss, rules read answer, `URLError` allows, and any other exception escapes |
| Robots.CacheAfter | src/robotparser.py:19-30 | other origins' entries are unchanged; a hit or an escaping exception leaves the cache as it was; a miss stores the new parser, or `None` after `URLError` |
| Robots.RobotsCache.constructor | src/robotparser.py:6 | the cache starts empty |
| Robots.RobotsCache.CanFetch | src/robotparser.py:9-34 | answer and new cache are `Decision` and `CacheAfter`, and robots.txt is read exactly on a miss |
| Robots.HitIgnoresRead | src/robotparser.py:19-21 | on a hit neither the answer nor the cache depends on what a read would do |
| Robots.UnreachableOriginIsReread | src/robotparser.py:21-30 | after `URLError` the next call for that origin reads again and answers as a first call would |
| Robots.SameOriginSharesParser | src/robotparser.py:17-19 | a second URL of the same origin is answered by the first one's parser without a read |
| Robots.OtherOriginUnaffected | src/robotparser.py:30 | a call does not change the answer for a URL of another origin |
| Robots.EntryAfterCall | robotparser.py:23 | a call that does not raise leaves an entry for its origin |
| Downloaders.FileNameFor | src/downloaders.py:49 | an explicit non-empty name is used; otherwise the last `/`-separated piece of the URL: a suffix without `/` that is either the whole URL or preceded by `/` |
| Downloaders.AfterTransfer | src/downloaders.py:59-69 | the status stays success exactly when it was success and the transfer delivered; a failed transfer sets its message, a delivered one keeps the old message; url and size come from a response the variant records, and are kept otherwise; the path is not touched |
| Downloaders.AfterDownload | src/downloaders.py:40-72 | never resets the status to success; an empty name fails and raises before the robots check; a robots exception escapes unchanged; otherwise the path is stored and returned; a failed transfer gives `failed_download` with its message and wins over a refusal; a refusal alone gives `skipped_robots`; url and size come only from a response, and stale values survive otherwise |
| Downloaders.AfterDownloadKeepsNoMessage | src/downloaders.py:50-72 | `download` keeps the invariant that a downloader reporting success holds no message: messages are written only together with `failed_download` |
| Downloaders.ContentDownloader.constructor | src/downloaders.py:26-38 | the fields start at `""`, `success`, `""`, `""` and `0` |
| Downloaders.ContentDownloader.Download | src/downloaders.py:40-72 | fields and result are `AfterDownload` of the old fields; the robots cache changes only when the name is non-empty |
| Downloaders.ContentDownloader.CheckAndFetch | src/downloaders.py:54-72 | the robots check then `_download`, as `AfterDownload` states, with the cache updated by `CacheAfter` |
| Downloaders.ContentDownloader.StoreTransfer | src/downloaders.py:95-104 | what the variant records of the response, and the failure of the `try` |
| Downloaders.StoredPathEndsInName | src/downloaders.py:58 | the stored path of a downloader given a plain name ends in that name |
| Handlers.PresentCells | src/handlers.py:122 | the cells kept are exactly the non-`None` ones |
| Handlers.PresentCellsAppend | src/handlers.py:122 | filtering out `None` cells distributes over concatenation, so the kept cells are the input's non-`None` cells in their order |
| Handlers.WorkbookRows | src/handlers.py:121-125 | one line per row of every sheet |
| Handlers.MetadataOf | src/handlers.py:80-85 | the keys are the format's key set; language, page count (pages for PDF, paragraphs for DOCX), author and date as each `_handle` assigns them |
| Handlers.OutputName | src/handlers.py:42 | a plain name ending in `.txt`, whose stem has no dot and starts the last path component, and is either all of that component or ends just before a dot in it |
| Handlers.AfterHandle | src/handlers.py:34-54 | the destination path is always stored; success only if it was success and parse, detection and write all succeed; only `failed_processing` is written; metadata is replaced only once the language is known; the message is the exception's, else the old one |
| Handlers.AfterHandleKeepsNoMessage | src/handlers.py:45-53 | `handle` keeps the invariant that a handler reporting success holds no message: messages are written only together with `failed_processing` |
| Handlers.ContentHandler.constructor | src/handlers.py:27-32 | the fields start at `success`, `""`, `""` and `{}` |
| Handlers.ContentHandler.Handle | src/handlers.py:34-54 | the new fields are `AfterHandle` of the old, and the returned path is the stored one |
| Handlers.OutputPathEndsInTextName | src/handlers.py:42-43 | the handler's output path ends in the derived `.txt` name |
| Handlers.LinesArePages | src/handlers.py:77 | PDF pages and DOCX paragraphs without line breaks can be split back out of the text |
| Handlers.RowTextSplitsIntoCells | src/handlers.py:122 | cells without spaces can be split back out of a row's text |
| Handlers.WorkbookLinesAreRows | src/handlers.py:121-125 | for a workbook with at least one row and rows without line breaks, the text splits on line breaks back into the rows of all sheets in order |
| Handlers.WorkbookRowsAppend | src/handlers.py:123-124 | the rows of a workbook are the rows of its sheets, sheet after sheet |
| Handlers.WorkbookRowAt | src/handlers.py:121-125 | row `i` of sheet `k` is one line of the text, at the position after all earlier sheets' rows |
| Extraction.LineColumns | src/main.py:51 | a line has at least one column, and none contains the separator |
| Extraction.LineColumnsRejoin | src/main.py:51 | joining the columns with the separator gives back the line with surrounding newlines and quotes stripped |
| Extraction.AcceptedColumns | src/main.py:51-54 | no more columns are accepted than there are |
| Extraction.AcceptedColumnsMembers | src/main.py:52-54 | a column is accepted exactly when it parses to an `http`, `https` or `ftp` URL with a netloc |
| Extraction.AcceptedColumnsSnoc | src/main.py:51-54 | one more column is appended exactly when it is accepted |
| Extraction.AppendIfAccepted | src/main.py:52-54 | a new record for the column is appended exactly when it is accepted; earlier records are kept |
| Extraction.AppendAccepted | src/main.py:51-54 | one record per accepted column of a line, in order, after the earlier ones |
| Extraction.ExtractUrlsFromCsvFile | src/main.py:40-57 | a missing file gives no records; otherwise, in order, one new record per accepted column of every line |
| Extraction.ExtractUrlsFromCsvRows | main.py:33-42 | a missing file raises; otherwise, in order, one new record per accepted column of every row |
| Extraction.ColumnsOfLines | src/main.py:44-51 | every column of every line is among the file's columns |
| Pipeline.ClearUrlsOfGarbage | src/main.py:60-72 | every record's source URL is cleaned once, even when listed twice, and no other field changes |
| Pipeline.CopyDownload | src/main.py:119-123 | final url, status, message, raw path and size come from the downloader; assigning a non-empty raw path stamps the download time, an empty one leaves it as it was |
| Pipeline.AttemptDownload | src/main.py:113-123 | the kind is recorded; a raise changes nothing else; otherwise the raw file is `id + ext` in the kind's folder, the downloader's fields are copied, the timestamp is stamped and the rest is kept; a failed downloader stays failed |
| Pipeline.DownloadRecord | src/main.py:108-123 | an unclassified URL gets only `failed_download`; a failed lookup escapes before any change; a failed shared downloader makes every later record of its kind fail |
| Pipeline.DownloadStep | src/main.py:108-123 | an iteration keeps the number of records, and after an escape changes nothing |
| Pipeline.StepTouchesOneRecord | src/main.py:108-123 | iteration `i` writes only record `i` |
| Pipeline.UnreachedRecordsUntouched | src/main.py:108 | records the loop has not reached are as they were |
| Pipeline.DownloadStepKeepsFailures | src/main.py:115-120 | an iteration never resets a failed downloader |
| Pipeline.DownloaderFailureIsSticky | src/main.py:99-123 | a downloader that failed once stays failed for the rest of the run |
| Pipeline.DownloadRecordKeepsNoMessage | src/main.py:109-123 | the loop body keeps both downloaders free of a message while they report success, and a record it reports as `success` without raising gets the empty message |
| Pipeline.DownloadStepKeepsNoMessage | src/main.py:108-123 | the same for one iteration of the loop |
| Pipeline.SuccessfulDownloadHasNoMessage | src/main.py:98-123 | starting from new downloaders, a record the run reports as `success` carries the empty message |
| Pipeline.AbortedRunIsFinal | src/main.py:108-109 | once an exception escapes, the run's state is final |
| Pipeline.DownloadWith | src/main.py:114-123 | the objects end as `AttemptDownload` states |
| Pipeline.CopyFields | src/main.py:119-123 | the five assignments after `download`, including the timestamp side effect |
| Pipeline.DownloadOne | src/main.py:108-123 | record, downloaders and cache end as `DownloadRecord` states |
| Pipeline.DownloadNext | src/main.py:108-123 | iteration `i` on the objects, stated against the run it continues |
| Pipeline.DownloadIteration | src/main.py:108-123 | the objects move from the state after `i` iterations to the state after `i + 1` |
| Pipeline.DownloadLoop | src/main.py:108-123 | the records and the cache end as the run of all iterations, and the outcome is the run's |
| Pipeline.DownloadFiles | src/main.py:98-123 | `download_files` with two fresh downloaders ends as the run from the initial records and cache |
| Processing.HandlerKey | src/main.py:146-149 | a handler is found exactly for `pdf`, `docx`, `xlsx` and `html`, under its own key |
| Processing.HandlerKeyOfExtension | src/main.py:127-132 | every handler is registered under its own extension |
| Processing.ExtType | src/main.py:144 | the extension is a suffix of the path without `.` or `/`, which is the whole path or follows a `.` or `/` |
| Processing.Lookup | src/main.py:155 | `metadata.get(key)`: the value when present, otherwise `None` |
| Processing.CopyCommon | src/main.py:152-155 | status, message, processed path and language come from the handler; nothing else changes |
| Processing.CopyFormatFields | src/main.py:156-162 | page count for pdf and docx; author and date for those and xlsx; nothing for html |
| Processing.HandleKnownEffect | src/main.py:149-154 | the record's handler alone changes, by one `handle` call; the text goes to the raw file's stem plus `.txt` in the format's folder; nothing is raised |
| Processing.HandleKnownOutcome | src/main.py:151-155 | the record succeeds exactly when the handler never failed before and parsing, language detection and writing all succeed now; a detected language is recorded |
| Processing.HandleKnown | src/main.py:149-162 | nothing is raised, the other formats' handlers are unchanged, and the record receives the fields of the handler of its format |
| Processing.CopyHandle | src/main.py:152-162 | status, message, processed path and language come from the handler |
| Processing.HandleRecordCases | src/main.py:141-162 | the four outcomes: skipped failed download, raising `split` on a missing path, `failed_processing` for an unregistered extension, and the registered handler |
| Processing.HandleKeepsDownloadFields | src/main.py:141-162 | identity, URLs, download results and unused fields are never touched |
| Processing.HandleRecordKeepsFailures | src/main.py:149-152 | a failed handler stays failed, and handlers only ever write `failed_processing` |
| Processing.HandleStep | src/main.py:140-162 | an iteration keeps the number of records, and after an escape changes nothing |
| Processing.AbortedHandlingIsFinal | src/main.py:144 | once an exception escapes, the run's state is final |
| Processing.HandleStepTouchesOneRecord | src/main.py:140-162 | iteration `i` writes only record `i` |
| Processing.HandleStepKeepsFailures | src/main.py:149-152 | an iteration keeps a handler's failure and writes no other status |
| Processing.HandlerFailureIsSticky | src/main.py:127-152 | a handler that failed once stays failed for the rest of the run |
| Processing.HandleRecordKeepsNoMessage | src/main.py:141-155 | the loop body keeps every handler free of a message while it reports success, and a record it reports as `success` without raising gets the empty message |
| Processing.HandleStepKeepsNoMessage | src/main.py:140-155 | the same for one iteration of the loop |
| Processing.SuccessfulHandlingHasNoMessage | src/main.py:126-155 | starting from new handlers, a record the run reports as `success` carries the empty message |
| Processing.HandlerStatusesOnlyFail | src/handlers.py:27-54 | the handlers' statuses stay within `success` and `failed_processing` over a run |
| Processing.HandleWith | src/main.py:151-162 | the handler ends as `AfterHandle` states, and the record gets its fields |
| Processing.CopyHandled | src/main.py:152-162 | the assignments after `handle` |
| Processing.CopyFormatMetadata | src/main.py:156-162 | the per-extension metadata assignments |
| Processing.HandleKnownWith | src/main.py:149-162 | the registered handler handles the record, and the other three are unchanged |
| Processing.HandleOne | src/main.py:141-162 | record and handlers end as `HandleRecord` states |
| Processing.HandleWithRawFile | src/main.py:144-162 | the loop body for a record that has a raw file and did not fail to download |
| Processing.HandleNext | src/main.py:140-162 | iteration `i` on the objects, stated against the run it continues |
| Processing.HandleIteration | src/main.py:140-162 | the objects move from the state after `i` iterations to the state after `i + 1` |
| Processing.HandleLoop | src/main.py:140-162 | the records end as the run of all iterations, and the outcome is the run's |
| Processing.HandleFiles | src/main.py:126-162 | `handle_files` with four fresh handlers ends as the run from the initial records |
| Processing.FailedDownloadsAreSkipped | src/main.py:141-142 | a `failed_download` record leaves the run exactly as it entered |
| Processing.SkippedRobotsRecordIsProcessed | src/main.py:141-152 | a `skipped_robots` record is handled, and becomes `success` when the handler and every step succeed |
| Processing.DownloadedFileFindsHandler | src/main.py:144 | a stored `id.x` has extension `x` and output name `id.txt`, in any folder |
| Processing.DownloadedRecordReachesHandler | src/main.py:114-149 | a file a downloader stored under `id.x` reaches the handler of `x`, which writes `id.txt` |

## Left out

- Network access, HEAD requests, Playwright, `wget` and `certifi` are left out. What they do for a record is an input (`Classify.Probe`, `Downloaders.Transfer`).
- `requests.get`'s `timeout`, and the Playwright `timeout * 1000`, play no part in the model.
- `_mkdir` and the file system are left out. A write is an input that may raise.
- The parsers (pypdf, python-docx, openpyxl, BeautifulSoup) are left out. What a parser yields is an input, `Handlers.Document`, or an exception message.
- `langdetect` is a function input. Its randomness (it is not seeded) is not modelled.
- `urlparse` is a function input in extraction. The pipeline keeps each record's `source_url` as a parsed `Urls.Url`, and `Urls.Render` stands for `urlunparse`.
- Percent-encoding in `parse_qsl` and `urlencode` is left out: the query is held as decoded pairs.
- `mimetypes.guess_type` and `guess_extension` are inputs: a guessed type and a table.
- `RobotFileParser.read` and its rule matching (RFC 9309) are inputs: a `Robots.ReadOutcome` and a decision function.
- The clock and `uuid.uuid4` are inputs: a clock reading per record and a function giving identifiers.
- Creation dates arrive already formatted by `strftime`.
- `file_size_bytes` holds the `Content-Length` text or `0`. Its integer conversion is not modelled because the code makes none.
- CSV input is left out. `src/main.py` is given the lines `readline` returns, and `main.py` the rows `csv.reader` yields.
- `generate_csv_report`, `argparse`, the `__main__` blocks and logging (`logger.py`, `src/logger.py`) are left out as I/O.
- `downloader.py` is not part of this model: nothing imports it.
- Downloaders.ContentDownloader.StoreTransfer: the Playwright variant's `goto` can return `None`, which then raises `AttributeError`. That case is the input `FailedBeforeResponse`, not a separate path.
- Pipeline.DownloadStep: a step at a position past the end of the list leaves the run unchanged. The loop never takes such a step.
- Processing.HandleStep: a step at a position past the end of the list leaves the run unchanged. The loop never takes such a step.
- Pipeline.DownloadFiles: it requires the list to hold no record twice, as extraction produces it. Pipeline.ClearUrlsOfGarbage handles repeated records.
- Processing.HandleFiles: it requires the list to hold no record twice, as extraction produces it.
- Processing.HandleFiles: each parser yields a document of its own format (`Processing.SoundHandling`), as each `_handle` uses its own library.
- Extraction.ExtractUrlsFromCsvFile: the given lines are non-empty, as `readline` returns them before the end of the file.
- Text.Lower: it lower-cases ASCII letters only. Python's Unicode case mapping is not modelled.
- Extraction.LineColumns: the separator is one character. Python's `str.split(sep)` also takes longer separators, which the crawler's callers never pass.
- Paths.JoinPath: a folder starting with exactly two slashes (`//x`) is rendered with one leading `/`, where `pathlib` keeps both. The folders the crawler joins are constants without that prefix.
- Urls.Render: its properties (`Urls.RenderStart`, `Urls.RenderEnd`) state where the scheme, network location, query and fragment go, not every character of the text.
