# api-downloader, modelled in Dafny

api-downloader is a web interface for downloading media through a Cobalt-style
API. YouTube links are served by a small yt-dlp service instead. This project
models the sequential logic of both parts and proves properties of it:

- the streaming download manager, with its throttled progress reports, its
  fall-back to a plain download, and cancel and retry;
- the request router and builder for the API;
- the URL and file-name utilities;
- the picker dialog: grouping, lookup tables, file names and the bulk
  download schedule;
- the three ways the interface classifies replies: the batch processor, the
  single-URL processor and the `App` dispatcher. The older all-in-one
  `script.js` is modelled beside them and compared with them;
- the settings manager;
- the response shaping of the yt-dlp service.

There is one Dafny module per source file. `wrappers.dfy` holds `Option` and
`Result`. `strings.dfy` holds the JavaScript string built-ins the code relies on
(`includes`, `toLowerCase`, `trim`, `split`, decimal printing and `parseInt`).
`config.dfy` transcribes the constants of `config.js`. `responses.dfy` holds the
JSON shapes of the API's replies.

Everything outside the program is an input:

- the browser's `fetch` replies and their body readers;
- the clock and the user's `confirm` answer;
- the WHATWG URL parser, as the record it would produce (or `None` when it
  throws);
- `validateUrl`, as a predicate;
- `JSON.parse` of the stored settings, as a partial function;
- yt-dlp's `extract_info`, as a function from URL and quality to its outcome.

What the code shows or saves is modelled as a log of effects or events. The
objects whose fields the code updates are classes:

- `DownloadManager`
- `ApiService`
- `PickerModal`
- `BatchProcessor`
- `App`
- the closure state of `script.js`, as `Script.Page`
- `SettingsManager`

Their loops are Dafny loops whose invariants tie them to specification
functions.

Where the behaviour of the code differs from what its comments and messages
suggest, the model follows the code:

- `cancelDownload` deletes the map entry that the read loop later checks for the
  cancelled flag. The flag is therefore never seen, and a cancelled download
  saves what it has so far, or asks for the fall-back.
- A stream with no bytes leaves its id registered.
- The plain download path saves an empty body.
- A JSON `null` reply in a batch records two entries for one URL: a success,
  then the error thrown by reading `status` of `null`.
- An error reply without an `error` object makes `single.js` report a connection
  failure.
- `CONFIG.OPTION_LABELS` does not exist. `createOptions` therefore throws, and the
  settings dialog can never be opened.
- A `youtube-nocookie.com` URL is routed to the yt-dlp service. That service
  rejects it unless a video id could be extracted from it.

## Model

| member | source | states |
|---|---|---|
| Download.TotalOf | web-interface/js/download.js:111-112 | a falsy `content-length` gives total 0; otherwise the total is the header's `parseInt` (`None` for NaN) |
| Download.Percent | web-interface/js/download.js:164 | when the total is positive, the percent times the total is the counter times 100; otherwise it is 0; it lies in [0, 100] while the counter is at most the total |
| Download.Step | web-interface/js/download.js:150-168 | an empty chunk changes nothing; a non-empty chunk is kept and counted; a report is added exactly when the time since the last report exceeds 200 ms, and only then does the last report time move |
| Download.Scan | web-interface/js/download.js:139-170 | the read loop stops within the events |
| Download.ScanCounts | web-interface/js/download.js:150-153 | after the loop the counter equals the number of kept bytes, the kept bytes are exactly the bytes of the chunks read, and no empty chunk is kept |
| Download.StepThrottled | web-interface/js/download.js:155-168 | one chunk keeps the reports throttled: more than 200 ms apart, with growing counters |
| Download.ScanThrottled | web-interface/js/download.js:139-170 | the whole loop keeps the reports throttled |
| Download.ReportsAreThrottled | web-interface/js/download.js:155-168 | any two progress reports of a stream are more than 200 ms apart with strictly growing counters, and each comes more than 200 ms after the start |
| Download.CancelEndsScan | web-interface/js/download.js:139-148 | a cancel stop is caused by a cancel click among the events |
| Download.StreamKeepsFlagsClear | web-interface/js/download.js:134-137 | the streaming path never leaves a set cancelled flag in `activeDownloads` |
| Download.HttpErrorIsRethrown | web-interface/js/download.js:107-109 | a non-ok status is rethrown as `HTTP <status>: <text>` and not as the fall-back, is shown as an error state, and unregisters the id |
| Download.NullBodyFallsBack | web-interface/js/download.js:122-125 | a `null` body asks for the fall-back and registers nothing |
| Download.EmptyStreamFallsBack | web-interface/js/download.js:174-176 | a stream with no byte asks for the fall-back and leaves its id registered |
| Download.CompletedSavesReceived | web-interface/js/download.js:188-205 | a completed stream saves exactly the received bytes (more than zero), its final update reports that size as counter and total, and the id is unregistered |
| Download.FinishCompleted | web-interface/js/download.js:178-205 | a completed finish ends with the final update and the save, and unregisters the id |
| Download.CancelIsNotAnError | web-interface/js/download.js:143-146 | a cancel click never raises the cancel error: the bytes so far are saved, or the fall-back is asked for when there are none, and the id is unregistered |
| Download.FallbackOnlyOnSignal | web-interface/js/download.js:16-34 | only `FALLBACK_NEEDED` leads to the plain path; any other error is shown in the error panel; a completed stream adds nothing |
| Download.SimpleSavesEmptyBody | web-interface/js/download.js:249-259 | the plain path saves the body of an ok reply even when it is empty |
| Download.RetryHasNoFallback | web-interface/js/download.js:340-369 | retrying an unknown id changes nothing; retrying a known id resets the display, requests the stored url again, saves only under the stored file name and never reports the plain mode |
| Download.StreamAppendsNoSimple | web-interface/js/download.js:93-231 | the streaming path only appends to the effect log, starts with the request, saves only under its file name and never reports the plain mode |
| Download.ResponseAppendsNoSimple | web-interface/js/download.js:107-176 | the part after the request only appends effects, saves only under the file name and never reports the plain mode |
| Download.FinishAppendsNoSimple | web-interface/js/download.js:172-230 | the part after the loop only appends effects, saves only under the file name and never reports the plain mode |
| Download.SampleEffectsAreProgress | web-interface/js/download.js:160-165 | each report becomes exactly one progress update |
| Download.CancelUnregisters | web-interface/js/download.js:371-383 | cancelling a registered id removes it and shows the cancelled state; cancelling any other id changes nothing |
| Download.CreateSpec | web-interface/js/download.js:37-91 | `createProgressUI`: registers `progress-<now>` with the url and name, and shows its panel |
| Download.CancelSpec | web-interface/js/download.js:371-383 | `cancelDownload`: a registered id is removed and shows the cancelled state; otherwise nothing happens |
| Download.CatchSpec | web-interface/js/download.js:215-230 | the catch block: the two internal signals become `FALLBACK_NEEDED`; any other error is shown, unregisters the id and is rethrown |
| Download.StreamSpec | web-interface/js/download.js:93-231 | `downloadFileWithProgress`: the request, then the reply handled, or the thrown request error caught |
| Download.ResponseSpec | web-interface/js/download.js:107-176 | the status check, the total, the body check, the read loop with its progress updates, then the finish |
| Download.FinishSpec | web-interface/js/download.js:172-213 | after the loop: a cancel click cancels; a read error or no bytes go to the catch; otherwise the final update and the save of the bytes |
| Download.SimpleSpec | web-interface/js/download.js:233-284 | `downloadFileSimple`: the plain-mode update and the request; a thrown or non-ok request is rethrown; an ok one saves its body |
| Download.DownloadSpec | web-interface/js/download.js:8-35 | `downloadWithProgress`: the panel, the stream, and on `FALLBACK_NEEDED` the switch to the plain path, whose errors go to the error panel |
| Download.RetrySpec | web-interface/js/download.js:340-369 | `retryDownload`: for a stored id, the preparing update and the stream of the stored url and name; otherwise nothing |
| Download.DownloadManager.constructor | web-interface/js/download.js:3-6 | both maps and the log start empty |
| Download.DownloadManager.CreateProgressUI | web-interface/js/download.js:37-91 | the id is `progress-<now>`; the panel is shown and the url and name are stored for a retry |
| Download.DownloadManager.CancelDownload | web-interface/js/download.js:371-383 | the new state is the cancel specification of the old one |
| Download.DownloadManager.Catch | web-interface/js/download.js:215-230 | the two internal signals become `FALLBACK_NEEDED`; any other error is shown, unregisters the id and is rethrown |
| Download.DownloadManager.DownloadFileWithProgress | web-interface/js/download.js:93-231 | the invariant holds and the new state and outcome are those of the streaming specification |
| Download.DownloadManager.HandleResponse | web-interface/js/download.js:107-137 | the reply is handled as the response specification says |
| Download.DownloadManager.ReadLoop | web-interface/js/download.js:139-170 | the loop ends where the scan ends, with one progress update per report and the maps unchanged |
| Download.DownloadManager.Finish | web-interface/js/download.js:172-213 | what follows the loop matches the finish specification |
| Download.DownloadManager.DownloadFileSimple | web-interface/js/download.js:233-284 | the plain path matches its specification |
| Download.DownloadManager.DownloadWithProgress | web-interface/js/download.js:8-35 | the whole download matches its specification |
| Download.DownloadManager.RetryDownload | web-interface/js/download.js:340-369 | a retry goes through the streaming path alone |
| Api.QueryGet | web-interface/js/api.js:54 | `searchParams.get` is `None` exactly when no pair has the name; otherwise it is the value of the first such pair |
| Api.VideoId | web-interface/js/api.js:41-58 | an id is found only for a parsed URL and is never empty; the short form needs a `youtu.be` host; the watch form needs a `youtube.com` host without `youtu.be` |
| Api.CleanYouTubeUrl | web-interface/js/api.js:36-67 | `https://youtu.be/<id>` or `https://www.youtube.com/watch?v=<id>` when an id is found; otherwise the input, unchanged |
| Api.CleanOnlyYouTube | web-interface/js/api.js:21-67 | only a YouTube URL is ever rewritten |
| Api.ShortFormTestedFirst | web-interface/js/api.js:44-51 | a `youtu.be` host is never cleaned to the watch form |
| Api.CleanShortIdempotent | web-interface/js/api.js:44-50 | cleaning a cleaned short URL gives it back |
| Api.CleanWatchIdempotent | web-interface/js/api.js:51-57 | for an id without `&`, `#`, `+`, `%` or white space, cleaning a cleaned watch URL gives it back |
| Api.CleanWatchNotIdempotent | web-interface/js/api.js:51-57 | the id is put back without encoding: cleaning `watch?v=a%26b` gives `watch?v=a&b`, which cleans to `watch?v=a` |
| Api.IsYouTubeUrl | web-interface/js/api.js:21-33 | a parsed URL is YouTube when its lower-cased host names `youtube.com`, `youtu.be` or `youtube-nocookie.com`; an unparsable one when its raw text names `youtube.com` or `youtu.be` |
| Api.CobaltBody | web-interface/js/api.js:98-120 | the body has `url` and only whitelisted keys; each whitelisted option that is not `''`, null or undefined is copied; `url` is the input unless the options override it |
| Api.BuildCobaltBody | web-interface/js/api.js:110-120 | the `forEach` over the option keys builds exactly that body |
| Api.RequestHeaders | web-interface/js/api.js:123-132 | the three fixed headers are always present; `Authorization` is present exactly when a token is set and the URL is not YouTube, and it carries the token |
| Api.YouTubeQuality | web-interface/js/api.js:91 | the quality is `options.videoQuality` when it is truthy, else `720` |
| Api.BuildRequest | web-interface/js/api.js:70-132 | a YouTube URL goes to `/api/youtube` with exactly `url` (the cleaned URL) and `quality`; any other URL goes to `/api/` with the Cobalt body; the Authorization rule holds |
| Api.ProcessError | web-interface/js/api.js:143-150 | there is an error exactly for a non-ok status; 429 gives the rate-limit text with the `Retry-After` value; any other status gives `<status> <statusText>` |
| Api.ApiService.constructor | web-interface/js/api.js:5-8 | the base URL is the configured one and no token is set |
| Api.ApiService.SetAuthToken | web-interface/js/api.js:11-13 | the token becomes `<scheme> <token>`, with `Api-Key` as the default scheme |
| Api.ApiService.ClearAuth | web-interface/js/api.js:16-18 | the token is cleared |
| Api.ApiService.ProcessUrl | web-interface/js/api.js:70-155 | the request sent is the built request; a non-ok reply yields its error; an ok reply yields its body |
| Api.ApiService.CreateSession | web-interface/js/api.js:174-195 | a non-ok reply throws its status line and keeps the token; an ok reply with a truthy `token` sets `Bearer <token>`; otherwise the token is kept |
| Api.AuthorizationCarriesToken | web-interface/js/api.js:11-13 | after `setAuthToken`, a Cobalt request carries `<scheme> <token>` in its Authorization header |
| Utils.FormatBytes | web-interface/js/utils.js:2-8 | the zero text exactly for 0 bytes; otherwise the power of 1024 is the one that brackets the size, with its unit when the table has one |
| Utils.FormatTime | web-interface/js/utils.js:10-15 | the unknown text for zero or non-finite input; seconds below 60, minutes below 3600, hours otherwise |
| Utils.TrimAll | web-interface/js/utils.js:24 | every piece is trimmed, in place |
| Utils.KeepUrls | web-interface/js/utils.js:25 | only non-empty, valid pieces of the input are kept |
| Utils.KeepUrlsIsSubsequence | web-interface/js/utils.js:25 | the kept pieces are a subsequence of the input |
| Utils.KeepUrlsComplete | web-interface/js/utils.js:25 | every non-empty, valid piece is kept |
| Utils.ParseUrls | web-interface/js/utils.js:21-27 | the split on runs of commas and line breaks, trimmed, keeping the non-empty valid pieces |
| Utils.ParseUrlsSound | web-interface/js/utils.js:21-27 | every URL returned is non-empty, valid, trimmed and free of separators |
| Utils.ParseUrlsOrdered | web-interface/js/utils.js:23-26 | the URLs are a subsequence of the trimmed pieces of the split |
| Utils.ParseUrlsComplete | web-interface/js/utils.js:23-26 | every trimmed piece that is non-empty and valid is returned |
| Utils.TrimmedPieceClean | web-interface/js/utils.js:23-24 | a piece without separators stays without separators once trimmed, and is trimmed |
| Utils.SanitizeFilename | web-interface/js/utils.js:38-40 | the length is kept; each forbidden character becomes `_`; every other character is kept |
| Utils.SanitizedIsClean | web-interface/js/utils.js:38-40 | no forbidden character is left |
| Utils.SanitizeIdempotent | web-interface/js/utils.js:38-40 | sanitizing twice is sanitizing once |
| Picker.GetTypeInfo | web-interface/js/picker.js:131-140 | photo, video and gif get their entries; every other type gets the unknown entry |
| Picker.FileExtension | web-interface/js/picker.js:181-188 | photo gives jpg, video mp4, gif gif, anything else bin |
| Picker.TablesAgree | web-interface/js/picker.js:131-188 | a type has its own entry exactly when it has its own extension |
| Picker.TimestampNoUnderscore | web-interface/js/picker.js:177 | a printed timestamp has no `_` |
| Picker.TailNoUnderscore | web-interface/js/picker.js:177 | the `<timestamp>.<ext>` tail has no `_` |
| Picker.GenerateFilename | web-interface/js/picker.js:174-178 | `<type>_<index+1>_<timestamp>.<ext>` |
| Picker.FilenamePieces | web-interface/js/picker.js:174-178 | split on `_`, a generated name is the pieces of the type, then `i+1`, then `<timestamp>.<ext>` |
| Picker.FilenamesDistinct | web-interface/js/picker.js:174-178 | equal generated names have equal indices |
| Picker.KeyOrder | web-interface/js/picker.js:116-128 | the group keys in the order they are first seen, `unknown` for an item without a type |
| Picker.OfKind | web-interface/js/picker.js:116-128 | a group holds only items with its key |
| Picker.KeyOrderSound | web-interface/js/picker.js:116-128 | the keys are distinct; every item's key is among them; a key not among them has an empty group |
| Picker.GroupSizesSum | web-interface/js/picker.js:116-128 | the group sizes sum to the number of items |
| Picker.OfKindOrdered | web-interface/js/picker.js:116-128 | each group keeps the input order |
| Picker.GroupItemsByType | web-interface/js/picker.js:116-128 | the `forEach` builds a group for exactly the keys seen, each holding the items of its key in order |
| Picker.BulkSection | web-interface/js/picker.js:191-214 | the section is empty exactly when the picker is missing or has at most one item |
| Picker.Selected | web-interface/js/picker.js:293-298 | `all` selects every item; any other type selects exactly the items of that type |
| Picker.PickerModal.constructor | web-interface/js/picker.js:3-7 | hidden, with no data |
| Picker.PickerModal.Show | web-interface/js/picker.js:9-15 | visible, holding the data |
| Picker.PickerModal.Hide | web-interface/js/picker.js:18-25 | hidden, with no data |
| Picker.PickerModal.BulkDownload | web-interface/js/picker.js:290-318 | no picker, an empty selection or a declined confirm starts nothing; otherwise the i-th selected item is launched at i·500 ms under its generated name |
| Picker.LaunchesDistinct | web-interface/js/picker.js:310-317 | the launched names are distinct and the launches are 500 ms apart |
| Batch.GetErrorMessage | web-interface/js/batch.js:199-205 | the default text without an error or a truthy code; the table text for a known code; `Lỗi: <code>` otherwise |
| Batch.UnknownCodesDistinguished | web-interface/js/batch.js:199-205 | the message for an unknown code is none of the table texts, and different unknown codes give different messages |
| Batch.DownloadButtons | web-interface/js/batch.js:133-148 | a non-empty picker uses its first item; nothing is shown without a truthy url; the caption is the file name or `video` |
| Batch.ItemEntries | web-interface/js/batch.js:25-46 | a thrown call records one error entry; an object reply records one success entry; a `null` reply records a success entry then an error entry |
| Batch.ItemEvents | web-interface/js/batch.js:25-47 | the loading status, then the error status of a thrown call, a `null` reply or an error reply, or the success status and the download buttons |
| Batch.BatchEntries | web-interface/js/batch.js:25-46 | the entries of the first n items, in order |
| Batch.BatchEvents | web-interface/js/batch.js:25-51 | the events of the first n items, with a sleep after every item but the last |
| Batch.CountsAsSuccess | web-interface/js/batch.js:184-186 | an entry counts as a success when it is a success entry whose result is not an error reply |
| Batch.SuccessCount | web-interface/js/batch.js:184-185 | the successes are at most the entries |
| Batch.SummaryOf | web-interface/js/batch.js:180-197 | the summary's successes and errors add up to the number of entries |
| Batch.SuccessCountAppend | web-interface/js/batch.js:184-185 | counting successes distributes over appended entries |
| Batch.SummaryCountsReplies | web-interface/js/batch.js:184-188 | the summary's success count is the number of replies that were neither thrown nor an `error` reply; a `null` reply counts as a success |
| Batch.ItemSuccessCount | web-interface/js/batch.js:29-46 | the entries of one item contain exactly one counted success when its reply is successful, and none otherwise |
| Batch.OneEntryPerUrl | web-interface/js/batch.js:18-54 | there are at least as many entries as URLs, exactly as many when no reply is `null`, and the entries follow the URLs in order |
| Batch.ErrorReplyRecordedAsSuccess | web-interface/js/batch.js:33 | an error reply is recorded as a success entry but not counted as a success |
| Batch.SleepCountAppend | web-interface/js/batch.js:49-51 | counting sleeps distributes over appended events |
| Batch.NoSleepCounted | web-interface/js/batch.js:25-47 | the events of one item hold no sleep |
| Batch.SleepsBetweenItems | web-interface/js/batch.js:49-51 | a full run over n URLs sleeps exactly n−1 times |
| Batch.BatchProcessor.constructor | web-interface/js/batch.js:8-13 | not processing, with no results |
| Batch.BatchProcessor.ProcessBatch | web-interface/js/batch.js:15-56 | while processing, a call changes nothing; otherwise the results are one entry per reply in order, the page gets the item events and the summary, and processing ends |
| Batch.BatchProcessor.ProcessItem | web-interface/js/batch.js:25-51 | one item appends its entries and its events |
| Batch.BatchProcessor.Reset | web-interface/js/batch.js:207-210 | not processing, with no results |
| Single.HandleDownloadLink | web-interface/js/single.js:86-125 | an error exactly when the url is not truthy; otherwise the link with the url, the name, and the name or `video` as caption |
| Single.HandleResponse | web-interface/js/single.js:52-84 | missing data or status gives the invalid-reply error; tunnel and redirect give the link; picker gives the first item's link, or the no-choice error when the list is empty; error gives the mapped message; anything else gives the unknown-status message |
| Single.ErrorReplyMessage | web-interface/js/single.js:30-48 | no message without an `error` object; the two overridden codes get their texts; other codes get the table message |
| Single.Process | web-interface/js/single.js:12-50 | a thrown call gives the connection error; a `null` reply gives the no-data error; any non-error reply is handled as `handleResponse` does |
| Single.MissingErrorObjectThrows | web-interface/js/single.js:30-34 | an error reply without `error` ends in the connection error |
| Single.ProcessRefinesHandleResponse | web-interface/js/single.js:30-48 | `process` differs from `handleResponse` only on error replies with the two overridden codes or without `error` |
| Single.LinkOnlyForUsableReply | web-interface/js/single.js:12-125 | a link is shown exactly for a link reply with a truthy url, or a non-empty picker whose first item has one, and it is that url |
| Single.AgreesWithBatch | web-interface/js/single.js:86-125 | on link replies and non-empty pickers, the single view shows a link exactly when the batch view shows buttons, and with the same content |
| WebApp.HandleDownload | web-interface/js/app.js:110-138 | an empty trimmed input is an error; so are zero parsed URLs; one URL goes to the single processor; more go to the batch processor |
| WebApp.RoutedUrlsAreClean | web-interface/js/app.js:110-138 | every URL handed on is non-empty, valid, trimmed and free of separators |
| WebApp.DirectDownloadOf | web-interface/js/app.js:165-174 | the link's name is the file name, or `download` |
| WebApp.HandleApiResponse | web-interface/js/app.js:141-163 | tunnel and redirect download directly; local-processing is not supported; picker opens the picker; error composes the message; anything else is an unknown reply |
| WebApp.ErrorResponseText | web-interface/js/app.js:188-205 | `Lỗi: `, the code or `unknown`, then the service and the limit suffixes of the context |
| WebApp.HandleErrorResponse | web-interface/js/app.js:188-205 | the `+=` steps build the composed error text |
| WebApp.ErrorResponseShape | web-interface/js/app.js:188-205 | the message starts with `Lỗi: ` and the code or `unknown`; it grows exactly when the context names a service or a non-zero limit, and it ends with the limit when there is one |
| WebApp.ComparedWithErrorTable | web-interface/js/app.js:188-205 | without a context the message equals the table message of the other views exactly for unknown codes |
| WebApp.App.constructor | web-interface/js/app.js:11-21 | the page starts empty and hidden |
| WebApp.App.Reset | web-interface/js/app.js:207-226 | the batch processor is reset; the input is emptied; the result and error areas are hidden and cleared |
| Script.CommaUrls | web-interface/js/script.js:60 | no piece is empty |
| Script.Click | web-interface/js/script.js:51-74 | an empty trimmed input is an error; one comma piece goes to the single flow and more to the batch |
| Script.DropEmptyTrimAll | web-interface/js/script.js:60 | dropping empty pieces before trimming changes nothing |
| Script.KeepAllIsDropEmpty | web-interface/js/script.js:60 | with every URL accepted, keeping valid pieces is dropping empty ones |
| Script.AgreesWithParseUrls | web-interface/js/script.js:60 | without line breaks, the comma split agrees with `parseUrls` when every URL is accepted |
| Script.LineBreakIsNotASeparator | web-interface/js/script.js:60 | for any two trimmed, non-empty URLs without separators, joined by a line break, the comma split returns one URL and `parseUrls` returns both |
| Script.ScriptErrorMessage | web-interface/js/script.js:320-337 | four known codes get their texts; a missing error or code gets the unknown text; any other code gets `Lỗi: <code>` |
| Script.ComparedWithErrorTable | web-interface/js/script.js:320-337 | the switch agrees with the table of `batch.js` exactly when the code is not `default` |
| Script.ScriptItemEvents | web-interface/js/script.js:115-136 | as in `batch.js`, but an error reply's status text comes from the switch |
| Script.ScriptBatchEvents | web-interface/js/script.js:115-141 | the events of the first n items, with a pause after every item but the last |
| Script.SameBatchPage | web-interface/js/script.js:100-146 | when no error reply carries the code `default`, the batch page shows what `batch.js` shows |
| Script.PausesBetweenItems | web-interface/js/script.js:138-141 | a full run over n URLs pauses exactly n−1 times |
| Script.HandleResponse | web-interface/js/script.js:405-438 | an error reply shows the unknown text without an error or a code, and otherwise `Lỗi: <code>`, built inline and not through the switch; every other reply is handled as in `single.js` |
| Script.ProcessDownload | web-interface/js/script.js:340-402 | a thrown call gives the connection error; a non-ok status gives the API error; a `null` body gives the no-data error; an ok error reply gives the unknown text without an error or a code, the override texts for the login and invalid-body codes, and `Lỗi: <code>` for any other code; a link needs an ok reply |
| Script.ProcessDownloadAgainstSingle | web-interface/js/script.js:340-402 | on an ok reply this script agrees with `single.js` except for error replies: without an error object it shows the unknown text where `single.js` reports a connection failure; the two override codes agree; other codes agree exactly when they are not in the error table |
| Script.SaveName | web-interface/js/script.js:474 | the file name, or `video.mp4` |
| Script.Page.constructor | web-interface/js/script.js:17-19 | not processing, no results, an empty page |
| Script.Page.ProcessBatchDownload | web-interface/js/script.js:100-146 | while processing, a call changes nothing; otherwise the results are one entry per reply in order, the result area holds the batch panel, the page gets the events, and processing ends |
| Script.Page.ProcessItem | web-interface/js/script.js:115-141 | one item appends its entries and its events and changes nothing else |
| Script.Page.ResetApp | web-interface/js/script.js:512-532 | not processing, no results; the input is emptied; the result and error areas are hidden and cleared |
| Settings.LoadSettings | web-interface/js/settings.js:11-21 | the defaults when nothing is saved or the parse fails; otherwise the defaults overridden key by key by the saved map |
| Settings.LoadedFromConfig | web-interface/js/settings.js:11-21 | with the configured (missing) defaults, the settings are the saved map |
| Settings.TextsWritten | web-interface/js/settings.js:309-318 | a non-empty field value is written; an empty one leaves its key; other keys are unchanged |
| Settings.BoxesWritten | web-interface/js/settings.js:319-323 | every checkbox is written; other keys are unchanged |
| Settings.OptionTags | web-interface/js/settings.js:239-242 | one tag per label, selected exactly when its value is the current setting |
| Settings.CreateOptions | web-interface/js/settings.js:236-243 | a missing label table throws; a key without labels gives no options; otherwise one option per label |
| Settings.ToggleSpec | web-interface/js/settings.js:349-374 | a shown dialog is hidden; a hidden one is shown when it exists and its options can be built; a missing label table throws |
| Settings.NeverShownWithConfig | web-interface/js/settings.js:349-374 | with the configured (missing) label table the dialog is never shown |
| Settings.ToggleFlips | web-interface/js/settings.js:368-374 | with a label table, a toggle flips the visibility and two toggles restore it |
| Settings.SettingsManager.constructor | web-interface/js/settings.js:5-9 | the settings are loaded and the dialog is hidden |
| Settings.SettingsManager.GetSettings | web-interface/js/settings.js:29-33 | a copy of the settings; the stored ones are not affected |
| Settings.SettingsManager.UpdateSetting | web-interface/js/settings.js:36-39 | the key gets the value, every other key is kept, and the map is persisted |
| Settings.SettingsManager.ResetSettings | web-interface/js/settings.js:42-46 | the settings become the defaults and are persisted |
| Settings.SettingsManager.SaveCurrentSettings | web-interface/js/settings.js:309-326 | without the dialog nothing changes; otherwise the form is applied and persisted |
| Settings.SettingsManager.CreateOptionsFor | web-interface/js/settings.js:236-243 | the options for the current settings |
| Settings.SettingsManager.ToggleSettings | web-interface/js/settings.js:349-374 | the visibility and the thrown error follow the toggle specification, and the settings are kept |
| YtDlp.FirstStream | ytdlp-service/app.py:52-63 | `None` exactly when no format with a url carries the stream; otherwise the url of the first format that does |
| YtDlp.SelectedUrlNonEmpty | ytdlp-service/app.py:57-63 | a selected stream url is never empty |
| YtDlp.SelectStreams | ytdlp-service/app.py:52-63 | the loop finds the first video stream and the first audio stream |
| YtDlp.KeepWithUrl | ytdlp-service/app.py:74-78 | every format with a url is listed, only those are listed, and every listed url is non-empty |
| YtDlp.FormatsSummary | ytdlp-service/app.py:74-78 | at most five entries |
| YtDlp.SummaryFromFirstFive | ytdlp-service/app.py:74-78 | the entries come from the first five formats, and every one of those with a url is listed |
| YtDlp.VideoInfoSpec | ytdlp-service/app.py:18-85 | an exception or a falsy info gives the error with its message; `formats` set to `None` gives the error of iterating `None`; otherwise the title (default `Unknown`), duration, thumbnail, the selected streams and the summary |
| YtDlp.GetVideoInfo | ytdlp-service/app.py:18-85 | an exception or a falsy info gives the error with its message; otherwise the title (default `Unknown`), duration, thumbnail, streams and summary |
| YtDlp.DownloadSpec | ytdlp-service/app.py:96-158 | 400 for a missing body or url, or a string url naming neither host; 500 with the server-error text for a url that is not a string; 500 with the message when `get_video_info` fails; otherwise 200 with the tunnel |
| YtDlp.DownloadYoutube | ytdlp-service/app.py:96-158 | the reply of the service for the request body |
| YtDlp.ValidationReplies | ytdlp-service/app.py:110-126 | a 400 is given exactly for a missing body or `url`, or a string url naming neither host; a missing url gives `Missing URL parameter` |
| YtDlp.QualityDefaults | ytdlp-service/app.py:117 | no `quality` answers as an explicit `720` |
| YtDlp.TunnelReply | ytdlp-service/app.py:138-148 | a 200 is a tunnel with the first video and audio streams, named `<title>.mp4` |
| YtDlp.ExtractionFailures | ytdlp-service/app.py:45-46 | an extraction error, or no info, gives a 500 with the message |
| YtDlp.TunnelShownAsLink | ytdlp-service/app.py:138-148 | the single view shows a tunnel reply as a link exactly when a video stream was found, and links it |
| YtDlp.NoCookieUrlRejected | web-interface/js/api.js:26-28 | a `youtube-nocookie.com` URL with no id is sent unchanged to `/api/youtube`, and the service answers 400 `Invalid YouTube URL` |

## Left out

- DOM work is out: the HTML templates, class toggling, event wiring, `alert`,
  `window.open` and the `<a download>` click. What they show is modelled as
  effects or events. `confirm` is a boolean input.
- Network I/O is out: `fetch`, `response.json()`, `response.blob()`, the stream
  reader, Flask routing and `extract_info`. Their results are inputs. A
  `response.json()` that fails to parse is not modelled.
- Browser and library services are out: `Blob`, `URL.createObjectURL`,
  `localStorage`, `JSON.parse` and `JSON.stringify`. Parse success or failure is
  a partial-function input, and persistence is a field.
- The WHATWG URL parser is out. It is the record it produces. `validateUrl` is a
  predicate.
- Floating point is out: download speed, the scaled value and its rounding in
  `formatBytes`, and `Math.round` in `formatTime`. The percent is an exact real.
  Only the branch structure and the integer thresholds are kept.
- Utils.FormatBytes: does not compute the shown digits, because they come from
  `Math.log`, division and `toFixed` on floating-point values.
- Download.Percent: exact reals stand in for the floating-point division.
- Concurrency and timing are out: simultaneous downloads, the running of
  `setTimeout` and `sleep`, and the 500 ms success update after a download. The
  re-entrancy guard of the batch views is modelled as the state before the call.
  A second call made while the first one is waiting is not modelled.
- Strings.ToLower lowers ASCII letters only.
- Property lookups on JavaScript prototype keys (such as `constructor` in
  `ERROR_MESSAGES`) are not modelled.
- Object key order is not modelled. Bodies and settings are maps, and
  `Object.entries` order does not matter to what is modelled.
- `get_json` returning anything but an object, or formats that are not
  dictionaries, is not modelled.
- Picker.PickerModal.BulkDownload: with no data shown, the code throws a
  `TypeError` on `this.currentData.picker`. The model returns `NoPicker`
  instead; in both cases nothing is launched.
- `initBatchUI`, `updateItemStatus` and `updateUI` markup is an event carrying
  only its data. `updateUI` of the settings dialog is not modelled.
- `getInstanceInfo`, `downloadFile` in `api.js`, `downloadDirect` and
  `showDownloadError` markup in `download.js`, `previewFile` and
  `downloadFile` in `picker.js`, and the `/health` and `/api/info` routes of
  the service are not modelled. They are not part of the modelled core.
- Error texts produced by the JavaScript engine are fixed to V8's wording:
  `Single.MissingErrorMessage`, `Batch.NullStatusMessage` and
  `Settings.LabelTableError`. Other engines word these `TypeError`s
  differently.
- Error texts produced by Python are fixed to CPython's wording:
  `YtDlp.NoneNotIterable` and the type names of `YtDlp.PythonTypeName`.
- A reply body is a JSON object or `null`. Other JSON values (`false`, `0`,
  `""`, an array) also reach the `!data` checks of `single.js` and
  `script.js`, but they are not modelled.
- A picker item is always an object. A `null` entry in the picker list, on
  which the code would throw, is not modelled.
- Api.CleanWatchIdempotent: holds only for ids without `&`, `#`, `+`, `%` or
  white space. The cleaned URL puts the decoded id back without encoding it,
  and `Api.CleanWatchNotIdempotent` shows an id for which cleaning twice
  differs from cleaning once.
- `theme.js`, `modal.js` and `vite.config.js` are not part of this model.
  `config.js` is transcribed as constants.
