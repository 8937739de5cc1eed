# cob-ai client: sync-wait logic and text renderings in Dafny

cob-ai is a Python client for a document search and SharePoint sync service.
The client `COB` starts a background sync, can wait for it by polling the status
endpoint while a spinner shows the elapsed runtime, fetches the sync status, and
runs searches. Its response records render themselves as text for the terminal.
This project models the decision and formatting logic around the HTTP calls.

- **Client** (`src/cob_ai/client.py`) covers the following:
  - `start_sync`:
    - a 409 reply short-circuits to "already in progress";
    - polling happens only when the start succeeded and waiting was asked for;
    - the poll loop ends at the first status that is not running;
    - the spinner label is refreshed from a truthy runtime;
    - Ctrl+C ends the wait.
  - `_get_status_quietly` and its normalisation of `failed_documents`.
  - `search` and its result mapping.
  - `sync`, which delegates to `start_sync`.
- **Models** (`src/cob_ai/models.py`) covers `str()` of `SyncStartResponse`,
  `SyncStatusResponse`, `SearchResult` and `SearchResponse`:
  - the runtime display;
  - the numbered folder and failure listings;
  - the singular or plural count line;
  - the numbering of results;
  - the `rstrip` of the trailing separator.
- **LegacyModels** (`cob_ai/models.py`) covers the earlier layouts:
  - `SyncCompletionStatus`;
  - a `SyncStatusResponse` without a running line and with full failure lines;
  - a count line without timing.
- **Runtime** covers `int(...)` of a float runtime, `divmod(..., 60)`, and the
  "Mm Ss" / "Ss" display.
- **Text** holds the Python string operations the renderings use:
  - `str(int)`;
  - `'c' * n`;
  - `str.replace(..., 1)`;
  - `str.rstrip(chars)`;
  - accumulation over `enumerate(..., 1)`.
- **Wrappers** holds Option and Result.

### How the model represents the source

- **HTTP replies.** Every HTTP reply is an input value: a status code plus a
  body. The body is absent when the JSON is not an object, or when its keys do
  not match the record it is unpacked into (a missing or an extra key). The
  values inside are taken to have their declared types; see "Left out".
- **Status polling.** The status endpoint is a sequence of replies, one per
  poll. A keyboard interrupt is `Some(j)`, meaning Ctrl+C arrives before fetch
  number j.
- **Exceptions.** An exception is an `Err`.
- **Running `start_sync`.** The method `Client.StartSync` runs the `while True`
  loop. Its result is proved equal to the function `Client.StartSyncRun`,
  which records:
  - the result;
  - the number of fetches;
  - the spinner labels;
  - whether the wait was interrupted;
  - the status printed at the end.
- **Renderings.** Renderings that accumulate text in loops are methods, each
  proved equal to a view function.
- **Lemmas.** The lemmas state what the rendered text conveys. Where that text
  holds numbers, the lemmas read them back.
- **Characters.** Dafny strings are sequences of Unicode scalar values. Python
  `len` counts code points too, so lengths such as that of the header
  underlines agree.

## Model

| member | source | states |
|---|---|---|
| Client.ConflictShortCircuits | src/cob_ai/client.py:75-77 | A 409 gives `success=false` with "A sync operation is already in progress". It does not raise and makes no status fetch, whatever the wait flag and the replies. |
| Client.NoWaitNoPolling | src/cob_ai/client.py:84 | Without a successful start and a wait request, nothing is fetched and no label is shown. A start that got through is returned unchanged. |
| Client.WaitPolls | src/cob_ai/client.py:84-98 | A successful start with a wait request enters the poll loop. |
| Client.StartSync | src/cob_ai/client.py:58-142 | The method equals `StartSyncRun`. It covers 409, `raise_for_status`, a malformed body, the wait guard and the poll loop. |
| Client.Poll | src/cob_ai/client.py:97-136 | The `while True` loop equals `PollRun`. The loop invariant ties the number of fetches to the first reply that ends the loop and to the interrupt. The labels so far are the spinner labels of the replies fetched. |
| Client.EndsPollingOnFetch | src/cob_ai/client.py:102-104 | A reply ends the loop exactly when `_get_status_quietly` raises on it or returns a status that is not running. |
| Client.FirstEnd | src/cob_ai/client.py:98-111 | Gives the index of the first reply whose fetch raises or whose status is not running, or the number of replies when none does. |
| Client.FirstEndIsFirst | src/cob_ai/client.py:98-111 | Every reply before that index keeps the loop going. |
| Client.StopIsFirstEnd | src/cob_ai/client.py:98-111 | A stopping reply reached without Ctrl+C and without passing the first stop is the first stop. |
| Client.PollRunStops | src/cob_ai/client.py:98-111 | Without an earlier Ctrl+C, the wait ends at the first reply that ends the loop. |
| Client.PollRunInterrupted | src/cob_ai/client.py:132-138 | Ctrl+C before fetch j, with j not past the first stop, ends the wait after j fetches with the labels of those replies. |
| Client.Finish | src/cob_ai/client.py:102-111 | At the stopping reply the fetch error is raised, or the status is printed (raising when it cannot be) and the start response kept. This equals `StopRun`. |
| Client.PollsUntilFirstStop | src/cob_ai/client.py:98-111 | With k the first stopping index, there are exactly k+1 fetches and no interrupt. The reported status is the k-th reply's status, and it is not running. A failing fetch is the error raised. |
| Client.StopRun | src/cob_ai/client.py:102-111 | At the stopping reply, the run returns the start response with that status printed, or it raises the fetch error. |
| Client.StopRunPrintsStatus | src/cob_ai/client.py:110 | At the stopping status, `start_sync` returns exactly when every failed document arrived as an object. Otherwise `print(status)` raises. |
| Client.WaitReturnsStartResponse | src/cob_ai/client.py:132-138 | Even after waiting, a successful result is the start response, not the final status. |
| Client.InterruptStopsWaiting | src/cob_ai/client.py:132-138 | Ctrl+C before fetch j gives j fetches, no final status, the start response as result, and the run marked interrupted. |
| Client.FetchesBounded | src/cob_ai/client.py:98-136 | A run never fetches past the first stopping reply or past the replies available. |
| Client.ThreePollsExample | src/cob_ai/client.py:98-130 | For [running, running, idle]: three fetches, the idle status reported, the start response returned, and one label refresh per running runtime. |
| Client.SpinnerLabels | src/cob_ai/client.py:92-130 | The spinner starts with "Syncing". Each polled reply adds at most one label. |
| Client.SpinnerRefreshesOnTruthyRuntime | src/cob_ai/client.py:114-130 | A running status refreshes the label exactly when its runtime is truthy (present and non-zero): it appends a label showing that runtime, which may repeat the previous text. |
| Client.SpinnerKeepsLabelWithoutRuntime | src/cob_ai/client.py:114 | With no truthy runtime among the polled statuses, the label stays "Syncing". |
| Client.SpinnerLabelsSnoc | src/cob_ai/client.py:98-130 | Each poll appends that reply's labels to those before it. |
| Client.RuntimeLabelShowsRuntime | src/cob_ai/client.py:115-119 | For a runtime x >= 0, the label "Syncing (…)" reads back to `int(x)` seconds. |
| Client.FromDict | src/cob_ai/client.py:157-161 | A record from an object takes "filename", "folder" and "error_message", with "" for each missing key. |
| Client.ConvertAll | src/cob_ai/client.py:156-163 | The comprehension keeps length and order. Objects become records; other elements stay as they came. |
| Client.KeepAll | src/cob_ai/client.py:153-154 | Without conversion, every element stays as it came, in order. |
| Client.Normalize | src/cob_ai/client.py:153-164 | Conversion happens only if the list is non-empty and its first element is an object. Otherwise the list is untouched. Length and order are kept. |
| Client.NormalizeAllRecordsIffAllDicts | src/cob_ai/client.py:153-164 | The normalised list holds only records exactly when every element arrived as an object, both directions. A non-object first element blocks all conversion. |
| Client.GetStatusQuietly | src/cob_ai/client.py:144-166 | Raises on 4xx/5xx and on a malformed body. Otherwise every field is as sent, with `failed_documents` normalised. |
| Client.FetchedStatusRenders | src/cob_ai/client.py:153-166 | A fetched status prints exactly when all its failed documents arrived as objects. |
| Client.ToResults | src/cob_ai/client.py:30-37 | One result per element, in the same order, taking "filename", "snippet" and "sharepoint_link". |
| Client.Search | src/cob_ai/client.py:16-41 | Succeeds iff there is no 4xx/5xx, the body is an object, and every element has the three keys. The results map element by element. They are empty when "results" is absent. The query and time are as given. |
| Client.Sync | src/cob_ai/client.py:205-215 | `sync(wait)` is exactly `start_sync(wait_for_completion=wait)`, and `wait` defaults to true. |
| Models.StartTextReadBack | src/cob_ai/models.py:14-16 | The icon is "✅" exactly when `success` holds, otherwise "❌". The message follows one space, verbatim. |
| Models.Banner | src/cob_ai/models.py:38-39 | The header underline is as long as the header, and all '═'. |
| Models.IdleLineIgnoresRuntime | src/cob_ai/models.py:50-51 | A non-running status reads "💤 No sync currently running", whatever its runtime. |
| Models.RunningLineShowsRuntime | src/cob_ai/models.py:42-49 | A running status with a non-negative truthy runtime shows `int(runtime)` in parentheses, as "Mm Ss" or "Ss". Without a truthy runtime it shows only the running text. |
| Models.SummaryReadBack | src/cob_ai/models.py:54-58 | The succeeded and failed counts are shown as stored. The folder count is `len(synced_folders)`. |
| Models.FoldersSection | src/cob_ai/models.py:60-65 | The folder section is present iff `synced_folders` is non-empty. |
| Models.FolderListedAt | src/cob_ai/models.py:64-65 | Folder i is listed as number i+1, after folders 1..i and before the rest. |
| Models.FoldersText | src/cob_ai/models.py:61-65 | The folder loop yields `FoldersSection`. |
| Models.FailedSection | src/cob_ai/models.py:68-70 | The failed-documents section is present iff the list is non-empty. |
| Models.FailedListedAt | src/cob_ai/models.py:71-78 | Document i is listed as number i+1, in order. |
| Models.FailedSectionShowsOnlyFilenames | src/cob_ai/models.py:78 | Only the index and file name appear. Lists that differ only in folders or error messages render identically. |
| Models.FailedText | src/cob_ai/models.py:68-78 | The failure loop yields `FailedSection` when every element is a record. It raises otherwise. |
| Models.StatusView | src/cob_ai/models.py:36-87 | `str(SyncStatusResponse)` exists iff every failed document is a record. |
| Models.StatusText | src/cob_ai/models.py:36-87 | The method equals `StatusView`. |
| Models.NumberedResultShape | src/cob_ai/models.py:136-139 | Numbering replaces only the file line's "📄", right after the leading newline. The rest of the result is unchanged. |
| Models.StripCharsAreSeparatorAndNewline | src/cob_ai/models.py:142-143 | `rstrip("═"*80 + "\n")` strips the character set {'═', '\n'}, not a suffix. |
| Models.SeparatorLineIsStripped | src/cob_ai/models.py:116 | Every character of a result's closing separator line is strippable. |
| Models.ResultsBlock | src/cob_ai/models.py:141-143 | After the strip, non-empty results text ends in neither '═' nor '\n'. |
| Models.ResultsText | src/cob_ai/models.py:134-143 | The accumulation loop plus the strip yields `ResultsBlock`. |
| Text.JoinNumbered | src/cob_ai/models.py:136-138 | The `enumerate(..., 1)` accumulation loop appends each entry in turn, so its text is `Numbered` of the items. |
| Models.NumberedEndsWithLink | src/cob_ai/models.py:134-139 | The joined listing is everything up to the last "🔗 ", then the last link and separator. |
| Models.ListingBeforeLastLink | src/cob_ai/models.py:109 | The listing before the last link ends with the space of "🔗 ". |
| Models.ResultsBlockStripsLastLink | src/cob_ai/models.py:141-143 | The strip removes the last separator, plus every trailing '═'/'\n' of the last link. It stops at the space after "🔗". |
| Models.ResultsBlockRemovesSeparator | src/cob_ai/models.py:141-143 | When the last link does not end in '═' or '\n', exactly the trailing separator line is removed. |
| Models.CountLineReadBack | src/cob_ai/models.py:132 | The count reads back. "result" takes an "s" iff the count is not 1. |
| Models.SearchText | src/cob_ai/models.py:126-150 | `str(SearchResponse)` equals `SearchView`. |
| LegacyModels.CompletionSummaryReadBack | cob_ai/models.py:23-27 | The processed, deleted and failed counts are shown verbatim. |
| LegacyModels.CompletionEntryDefaults | cob_ai/models.py:34 | Line i shows the file name or "Unknown file", then the "error" entry or "Unknown error". An "error_message" key is not read. |
| LegacyModels.CompletionFailedSection | cob_ai/models.py:31-32 | The section is present iff `failed_documents` is non-empty. |
| LegacyModels.CompletionListedAt | cob_ai/models.py:33-34 | Failure i is line i+1, in order. |
| LegacyModels.CompletionFailedText | cob_ai/models.py:30-34 | The loop yields `CompletionFailedSection`. |
| LegacyModels.CompletionText | cob_ai/models.py:17-41 | `str(SyncCompletionStatus)` equals `CompletionView`. |
| LegacyModels.LegacyFailedEntryShowsError | cob_ai/models.py:79 | The legacy failure line carries the error message. Equal file name and folder give equal lines iff the messages are equal. |
| LegacyModels.LegacyFoldersSection | cob_ai/models.py:69-70 | The folder section is present iff the list is non-empty. |
| LegacyModels.LegacyFolderListedAt | cob_ai/models.py:71-72 | Folder i is listed as number i+1, in order. |
| LegacyModels.LegacyFailedSection | cob_ai/models.py:76-77 | The failure section is present iff the list is non-empty. |
| LegacyModels.LegacyFailedListedAt | cob_ai/models.py:78-79 | Document i is listed as "i+1. filename (folder): error", in order. |
| LegacyModels.LegacyFoldersText | cob_ai/models.py:68-72 | The loop yields `LegacyFoldersSection`. |
| LegacyModels.LegacyFailedText | cob_ai/models.py:75-79 | The loop yields `LegacyFailedSection`. |
| LegacyModels.LegacyStatusText | cob_ai/models.py:55-87 | The legacy `str(SyncStatusResponse)` equals `LegacyStatusView`. |
| LegacyModels.LegacyCountLineReadBack | cob_ai/models.py:131 | The count reads back, and only a plural "s" may follow "result": no timing. |
| LegacyModels.LegacySearchText | cob_ai/models.py:125-149 | The legacy `str(SearchResponse)` equals `LegacySearchView`, with the same numbering and strip. |
| Runtime.Truncate | src/cob_ai/client.py:115 | `int(x)` truncates toward zero. The bounds are stated for both signs. |
| Runtime.MinutesSeconds | src/cob_ai/models.py:45 | `divmod(t, 60)`: 0 <= s < 60 and 60·m + s = t. |
| Runtime.ElapsedShowsSeconds | src/cob_ai/models.py:45-49 | For t >= 0, the "Mm Ss" (m > 0) or "Ss" text reads back to t. |
| Runtime.ElapsedOfNegative | src/cob_ai/models.py:45-49 | For t < 0 the minutes are negative, so only `t % 60` is shown, as seconds. |
| Runtime.ParenthesisedShowsSeconds | src/cob_ai/models.py:47-49 | A runtime in parentheses after a prefix reads back to its seconds. |
| Text.IntToString | src/cob_ai/models.py:65 | `str(n)`: a sign iff n is negative, then decimal digits. |
| Text.ReadIntOfIntToString | src/cob_ai/models.py:55-57 | `str(n)` reads back to n when followed by a non-digit. |
| Text.Repeat | src/cob_ai/models.py:63 | `c * n` is n copies of c. |
| Text.Rstrip | src/cob_ai/models.py:143 | `rstrip(chars)` gives a prefix that ends outside the set. Everything removed is in the set. |
| Text.RstripAfterStop | src/cob_ai/models.py:143 | The strip never reaches past a character outside the set. |
| Text.RstripDropsStrippable | src/cob_ai/models.py:143 | A tail made only of set characters is removed entirely. |
| Text.Find | src/cob_ai/models.py:138 | The first occurrence of a pattern, or none at all. |
| Text.ReplaceFirstAt | src/cob_ai/models.py:138 | `replace(pat, rep, 1)` rewrites only the first occurrence. |
| Text.NumberedSnoc | src/cob_ai/models.py:64-65 | Accumulating over `enumerate(xs, 1)` appends entry number len+1. |
| Text.NumberedAt | src/cob_ai/models.py:64-65 | Element i of the list is entry number first+i, between the entries before and after it. |
| Text.NumberedSameEntries | src/cob_ai/models.py:71-78 | Lists whose entries render alike give the same listing. |

## Left out

- HTTP, JSON decoding and `raise_for_status` are foreign I/O. Replies are inputs. A reply status of 400-599 raises. Any other status that is not 409 goes on.
- The `apikey` environment default, the bearer header, the base URL and the `top_n` query parameter are configuration.
- `time.time()` and `time.sleep(check_interval)` are left out. The search time is an input. A finite non-negative interval below about 9.2·10^9 seconds has no effect on the decisions; a negative, NaN, infinite or larger one is covered under `Client.StartSync` below.
- The `:.2f` formatting of `time_taken` is a function parameter (`fixed2`).
- `textwrap.fill` is a function parameter (`fill`). The failure lines compute a wrapped `error_msg` they never show, so it is not modelled.
- Threads and the spinner are not modelled: the thread start, stop and join, and `_show_status_animation`'s frames. Only the sequence of spinner labels is kept.
- `print` output is not modelled as a side effect. Each printed rendering is a view function, and `print(status)` matters only because it can raise.
- `status()` adds only a spinner and printing around `_get_status_quietly` and is not modelled separately.
- cob_ai/client.py, the packaging and scripts, and both `__init__.py` files are not part of this model.
- Client.StartSync: polling requires that some reply ends the loop, or that Ctrl+C arrives before the replies run out. A status endpoint that reports "running" forever makes `start_sync` loop forever; that non-termination is not modelled.
- Client.StartSync: Ctrl+C is modelled only between fetches, not during a fetch or while printing the final status.
- Client.StartSync: a negative or NaN `check_interval` makes `time.sleep` raise `ValueError` before the first fetch (src/cob_ai/client.py:99). An infinite interval, or one of 2^63 nanoseconds (about 9.2·10^9 seconds) or more, makes it raise `OverflowError` at the same point. Either error is re-raised after the sync has started (src/cob_ai/client.py:140-142). The model has no interval input and does not capture that error with zero fetches.
- Client.RawStatus: a `failed_documents` value of JSON `null` is not modelled; the field is always a list. Elements are objects with string values or other JSON values kept as text.
- Client.StartReply, Client.StatusReply, Client.SearchReply: JSON values are taken to have their declared types (booleans, integers, strings, finite numbers). The source checks only which keys are present (src/cob_ai/client.py:81, 166, 31-35), and other values pass through. None of the following is modelled, because the model's fields cannot hold such values:
  - Status replies: a `null` count is printed as "None" (src/cob_ai/models.py:55), and `start_sync` returns normally after printing it.
  - Status replies: a NaN or infinite runtime is truthy, and `int()` then raises (src/cob_ai/client.py:115, src/cob_ai/models.py:45).
  - Search replies: a `null` snippet makes `textwrap.fill` raise when the search response is printed (src/cob_ai/client.py:40, src/cob_ai/models.py:101-106).
- Client.Search: an element of "results" that is not an object is not modelled; a missing key is the only way an element can fail. A "results" value of JSON `null` (or any other non-list), on which the loop at src/cob_ai/client.py:36 raises `TypeError`, is not modelled either: `SearchBody.results` can only be a list or absent, and absent gives no results.
- LegacyModels.SyncCompletionStatus: failed documents are objects with string values; a non-object element, on which `.get` would raise, is not modelled.
- LegacyModels.LegacyStatus: failed documents are records. The only caller, cob_ai/client.py:69, passes the JSON objects unconverted, so in that program `doc.filename` (cob_ai/models.py:79) raises for any non-empty failure list; that caller is not part of this model.
- Runtime: floats are exact reals, with no rounding before `int(...)`.
