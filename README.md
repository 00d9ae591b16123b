# File vault client: upload queue, result views and request shaping

This project models the stateful core of a React client for a deduplicating file vault, and
proves properties of that model. The core covers:

- the **upload queue** of the upload page: enqueue, remove, clear, batch start, the simulated
  progress interval, the positional matching of server results to queue items, failure and
  the delayed sweep of finished items;
- the **My Files page**: paging guard, the refresh after a delete, the five-button page window
  and the "Showing X to Y of Z files" range;
- the **search page and its filter panel**: the filter record, `""`→undefined normalisation,
  active-filter counting, presets, badges, remembering and re-running the last search, and
  the summary line;
- the **API layer**: token storage and its removal on a 401, the header merge, the omit-empty
  search query, endpoint strings, reply interpretation, upload-response normalisation and
  the ordered MIME classifier;
- the **file table's delete guard** (a set of ids in flight) and its type label;
- the **dashboard frame's** active-route matching and header title.

One Dafny module per source file:

| module | file | source |
|---|---|---|
| `Common` | common.dfy | shared values: `Option`, `Result` (`Ok`/`Err`), `Toast`, `startsWith`/`includes`, decimal rendering of integers |
| `Api` | api.dfy | src/lib/api.ts |
| `FileUploader` | file_uploader.dfy | src/components/files/FileUploader.tsx |
| `FilesPage` | files_page.dfy | src/pages/FilesPage.tsx |
| `SearchFilters` | search_filters.dfy | src/components/dashboard/SearchFilters.tsx |
| `SearchPage` | search_page.dfy | src/pages/SearchPage.tsx |
| `FileList` | file_list.dfy | src/components/files/FileList.tsx |
| `DashboardLayout` | dashboard_layout.dfy | src/components/layout/DashboardLayout.tsx |

React state the source updates in place is a Dafny `class` with those fields:

- `UploadQueue`, `FilesView`, `SearchView`, `FilterPanel`, `DeleteGuard` and `ApiClient`;
- the token is an `Option<string>` field of `ApiClient`, instead of localStorage.

Each state updater (`setX(prev => ...)`) is a pure function from the old value to the new one,
and the class methods apply those functions. The `for` loop with its `resultIndex` counter that
writes the results into the queue is the method `FileUploader.ApplyResults`. It is proved
against the pointwise definition `Completed`.

Asynchronous steps are separate methods, and the server's reply is a parameter:

- `uploadFiles` as written becomes `StartUploadAsWritten`: the `new FileList()` on line 86
  throws, so every started item fails at once and no request is sent (see Findings);
- with that line removed, `uploadFiles` becomes `StartUpload`, then any number of `Tick`s,
  then `CompleteUpload` or a failure, then `Sweep`. The failure is `FailUploadAsWritten`,
  which leaves the progress interval running as the source's catch does, or the corrected
  `FailUpload`, which clears it;
- `handleDelete` becomes `BeginDelete`, then `FinishDelete`;
- the fetch-based pages take the outcome their API call would produce.

`Api.Reply` is a raw HTTP response or a transport failure. `Api.Interpret` and the `*Outcome`
functions turn a reply into what the endpoint returns or throws.

Where the code and the design description disagree, the model follows the code:

- `removeFromQueue` has no status check and can remove an item that is uploading. Only the UI
  stops this: the remove button is shown only for pending and failed items, and is disabled
  while uploading.
- No check inside `uploadFiles` stops a second upload while one is in flight. The only guard
  is the disabled button. `UploadQueue.StartUpload` therefore requires `!isUploading`, which
  models that guard.
- Neither the files page nor the search page drops a stale response. The model applies every
  outcome it is given.
- A 401 removes the token and throws "Authentication required". For an upload, that message
  fails only the items that were uploading. Pending items are not marked as failed.

## Model

| member | source | states |
|---|---|---|
| Api.Entries | src/lib/api.ts:104-112 | a search object has exactly six entries, in the panel's key order |
| Api.DefaultHeaders | src/lib/api.ts:27-33 | `Content-Type: application/json` always; `Authorization` present iff the token is truthy, with value `Bearer <token>`; no other key |
| Api.TokenTruthy | src/lib/api.ts:31 | `if (token)`: a stored token counts only when it is a non-empty string |
| Api.RequestHeaders | src/lib/api.ts:27-41 | the headers apiRequest sends, as written: the defaults merged under the caller's; its properties are AuthorizationIffToken and EmptyCallerKeepsJsonContentType |
| Api.MergeHeaders | src/lib/api.ts:35-41 | the spread merge has the union of keys; a caller key wins, every other default is kept |
| Api.AuthorizationIffToken | src/lib/api.ts:24-41 | the sent headers carry Authorization iff a (non-empty) token is stored, as `Bearer <token>` |
| Api.EmptyCallerKeepsJsonContentType | src/lib/api.ts:35-41 | an empty caller header object leaves exactly the defaults, JSON content type included |
| Api.UploadContentTypeAsWritten | src/lib/api.ts:166-170 | as written the upload is sent with `Content-Type: application/json`; the corrected headers have no Content-Type |
| Api.RequestHeadersFor | src/lib/api.ts:166-170 | corrected headers: identical to the merge for bodiless requests, no client Content-Type on a multipart body, caller keys and the Authorization rule kept |
| Api.ListEndpoint | src/lib/api.ts:181-182 | the list path starts with `/files?page=` |
| Api.ListEndpointDetermined | src/lib/api.ts:181-182 | the list path determines both the page and the page size it was built from |
| Api.ListEndpointDefaults | src/lib/api.ts:181-182 | with the defaults the path is `/files?page=1&pageSize=20` |
| Api.DeleteEndpoint | src/lib/api.ts:229-232 | the delete path starts with `/files/` and ends with `/delete` |
| Api.DeleteEndpointExample | src/lib/api.ts:229-232 | file 42 is deleted at `/files/42/delete` |
| Api.BuildSearchQuery | src/lib/api.ts:192-198 | the forEach loop builds exactly `SearchQuery` of the entries |
| Api.SearchQuery | src/lib/api.ts:194-198 | the query is no longer than the entries |
| Api.Stringify | src/lib/api.ts:196 | `value.toString()`: a string as it is, a number as its decimal text |
| Api.SearchQueryExact | src/lib/api.ts:194-198 | every entry that is not undefined, null or "" is in the query, stringified, and nothing else is |
| Api.SearchQueryEmpty | src/lib/api.ts:194-198 | the query is empty iff no entry is sent |
| Api.ZeroIsSent | src/lib/api.ts:195 | a numeric 0 is sent (as "0") while "" is dropped |
| Api.ErrorText | src/lib/api.ts:173-174 | `error \|\| fallback`: the body text when non-empty, the fallback otherwise |
| Api.Interpret | src/lib/api.ts:46-50 | ok iff a 2xx response, then the JSON; a 401 throws "Authentication required"; a transport failure its message; other statuses the endpoint's wording |
| Api.IsOk | src/lib/api.ts:132 | `response.ok`: the status is in 200..299 |
| Api.InterpretErrorNonEmpty | src/lib/api.ts:172-175 | with non-empty fallbacks every thrown message is non-empty |
| Api.NormalizeUploadBody | src/lib/api.ts:177-178 | an array reply is returned unchanged, a single object is wrapped as a one-element list |
| Api.UploadOutcome | src/lib/api.ts:172-178 | upload succeeds iff 2xx, with the normalised list; otherwise the body text or "Upload failed" |
| Api.ListOutcome | src/lib/api.ts:184-186 | a non-ok, non-401 list reply throws "Failed to fetch files" |
| Api.SearchOutcome | src/lib/api.ts:202-204 | a non-ok, non-401 search reply throws "Search failed" |
| Api.DeleteOutcome | src/lib/api.ts:234-237 | a non-ok, non-401 delete reply throws the body text or "Delete failed" |
| Api.FileTypeFromMime | src/lib/api.ts:262-270 | the class is one of image, video, audio, document, archive, code |
| Api.FileTypeRules | src/lib/api.ts:262-270 | each class is returned iff its rule is the first that matches, with document also the default |
| Api.PrefixesExclusive | src/lib/api.ts:263-265 | no type starts with two of the media prefixes |
| Api.TextJavascriptIsDocument | src/lib/api.ts:266-268 | `text/javascript` is a document, because the text rule comes first |
| Api.ImagePngIsImage | src/lib/api.ts:263 | `image/png` is an image |
| Api.ApplicationNotMedia | src/lib/api.ts:263-265 | a type starting with "application/" matches none of the image, video and audio prefixes |
| Api.ApplicationJsonIsCode | src/lib/api.ts:268 | `application/json` is code |
| Api.ApplicationZipIsArchive | src/lib/api.ts:267 | `application/zip` is an archive |
| Api.FontMatchesNoRule | src/lib/api.ts:263-267 | `font/woff2` has no media prefix, no document word and no archive word |
| Api.UnknownTypeIsDocument | src/lib/api.ts:269 | an unmatched type (`font/woff2`) falls back to document |
| Api.ApiClient.constructor | src/lib/api.ts:6-8 | the client starts with the stored token |
| Api.ApiClient.GetAuthToken | src/lib/api.ts:6-8 | reads the stored token |
| Api.ApiClient.SetAuthToken | src/lib/api.ts:10-12 | stores the token |
| Api.ApiClient.RemoveAuthToken | src/lib/api.ts:14-16 | clears the token |
| Api.ApiClient.IsAuthenticated | src/lib/api.ts:18-20 | authenticated iff a token is stored (an empty string counts) |
| Api.ApiClient.ApiRequest | src/lib/api.ts:23-53 | one request to the base URL with the defaults merged under the caller's headers, whatever the body; the token is removed iff the reply is a 401 |
| Api.ApiClient.Upload | src/lib/api.ts:159-179 | POST /upload with one multipart body, sent as written with `Content-Type: application/json`; outcome as UploadOutcome; token removed on a 401 |
| Api.ApiClient.List | src/lib/api.ts:181-189 | GET of the list path; outcome as ListOutcome |
| Api.ApiClient.Search | src/lib/api.ts:191-207 | GET /search with exactly the sent entries; outcome as SearchOutcome |
| Api.ApiClient.Delete | src/lib/api.ts:229-238 | DELETE of the delete path; outcome as DeleteOutcome |
| Api.TokenScenario | src/lib/api.ts:6-20 | after set the token reads back and the session is authenticated; after remove it is not |
| Api.UnauthorizedScenario | src/lib/api.ts:46-50 | a 401 on any request throws "Authentication required" and logs the session out |
| Common.IntToStringRoundTrip | src/lib/api.ts:182 | the decimal text of an integer reads back to that integer |
| FileUploader.CountStatusZero | src/components/files/FileUploader.tsx:11-17 | no item has a status iff its count is zero |
| FileUploader.Enqueued | src/components/files/FileUploader.tsx:47-55 | accepted files are appended in order as pending with progress 0; existing items are unchanged |
| FileUploader.EnqueuedKeepsUploadingCount | src/components/files/FileUploader.tsx:47-55 | enqueueing adds no uploading item |
| FileUploader.RemovedAt | src/components/files/FileUploader.tsx:65-67 | `filter((_, i) => i !== index)`, defined by recursion; RemovedAtSpec states what it keeps |
| FileUploader.RemovedAtSpec | src/components/files/FileUploader.tsx:65-67 | exactly the item at the index goes, the rest keep their order; an index outside the queue changes nothing; there is no status check |
| FileUploader.RemovedAtKeepsInvariants | src/components/files/FileUploader.tsx:65-67 | removal keeps every item well formed and adds no uploading item |
| FileUploader.KeepWhereAppend | src/components/files/FileUploader.tsx:139 | status filtering keeps queue order (it distributes over concatenation) |
| FileUploader.KeepWhereCounts | src/components/files/FileUploader.tsx:139 | a kept item appears as often as before, every other item not at all |
| FileUploader.Swept | src/components/files/FileUploader.tsx:137-140 | the sweep's filter `status !== "success"`; SweptSpec states what it keeps |
| FileUploader.Cleared | src/components/files/FileUploader.tsx:166-168 | clearQueue's filter `status === "uploading"`; ClearedSpec states what it keeps |
| FileUploader.SweptSpec | src/components/files/FileUploader.tsx:137-140 | the sweep removes every success and keeps every other item with its multiplicity |
| FileUploader.ClearedSpec | src/components/files/FileUploader.tsx:166-168 | clearing keeps exactly the uploading items |
| FileUploader.Batch | src/components/files/FileUploader.tsx:73 | the batch has one file per pending item |
| FileUploader.Started | src/components/files/FileUploader.tsx:77-83 | the pending→uploading map; StartedSpec states its effect |
| FileUploader.UploadingFiles | src/components/files/FileUploader.tsx:86-89 | the files of the uploading items in queue order, as many as there are uploading items |
| FileUploader.StartedSpec | src/components/files/FileUploader.tsx:77-83 | every pending item becomes uploading at 10%, every other item is unchanged, no pending item remains |
| FileUploader.StartedUploadsTheBatch | src/components/files/FileUploader.tsx:73-88 | with nothing uploading before, the uploading files after the start are the batch sent, in order |
| FileUploader.Ticked | src/components/files/FileUploader.tsx:92-100 | the interval's map; TickedSpec states its effect |
| FileUploader.TickedSpec | src/components/files/FileUploader.tsx:92-100 | a tick keeps statuses; an uploading item below 90 rises and stays at most 90; every other item is unchanged |
| FileUploader.EightTicksReachNinety | src/components/files/FileUploader.tsx:92-100 | eight ticks take 10% to 90%, where progress stops |
| FileUploader.ApplyResults | src/components/files/FileUploader.tsx:106-123 | the resultIndex loop computes `Completed` |
| FileUploader.Completed | src/components/files/FileUploader.tsx:106-123 | the uploading item at i takes the result whose index is the number of uploading items before i; CompletedSpec and StartThenCompleteCorrelates state its effect |
| FileUploader.CompletedSpec | src/components/files/FileUploader.tsx:106-123 | every uploading item becomes a success at 100%; others are unchanged; none remains uploading |
| FileUploader.TicksThenCompleted | src/components/files/FileUploader.tsx:92-123 | ticks during the request leave no trace after the results |
| FileUploader.StartThenCompleteCorrelates | src/components/files/FileUploader.tsx:73-123 | the pending item with k pending items before it is batch file k and ends as a success carrying results[k] |
| FileUploader.BatchAt | src/components/files/FileUploader.tsx:73 | a pending item's position among pending items is its position in the batch |
| FileUploader.TwoFileBatchExample | src/components/files/FileUploader.tsx:106-123 | two files, the second deduplicated, get their own results by position |
| FileUploader.FailureMessage | src/components/files/FileUploader.tsx:156 | an Error's message, or "Upload failed" for any other thrown value |
| FileUploader.Failed | src/components/files/FileUploader.tsx:149-160 | the catch's map; FailedSpec states its effect |
| FileUploader.FailedSpec | src/components/files/FileUploader.tsx:149-160 | every uploading item becomes an error with the message; no item becomes a success; all others are unchanged |
| FileUploader.FailureToastText | src/components/files/FileUploader.tsx:143-147 | the failure toast's text: the Error's message, which is also the items' error text, or "Unknown error occurred", which differs from the items' "Upload failed" |
| FileUploader.CountStatusPointwise | src/components/files/FileUploader.tsx:77-83 | queues whose items agree position by position on a status count it alike |
| FileUploader.StartFailsEveryUploadAsWritten | src/components/files/FileUploader.tsx:77-86 | as written, the start then the throw at line 86 turn every pending or uploading item into an error with the TypeError's message, leave the rest unchanged, and add no success |
| FileUploader.DedupCount | src/components/files/FileUploader.tsx:126 | the deduplicated count is at most the result count |
| FileUploader.DedupCountAll | src/components/files/FileUploader.tsx:126 | the count is all results iff all are deduplicated, zero iff none is |
| FileUploader.DedupNote | src/components/files/FileUploader.tsx:131 | the "(n deduplicated)" suffix is empty iff n is 0 |
| FileUploader.UploadHeadlinePlural | src/components/files/FileUploader.tsx:130 | the headline says "files" iff more than one file was uploaded |
| FileUploader.UploadHeadline | src/components/files/FileUploader.tsx:130 | "N file[s] uploaded successfully"; UploadHeadlinePlural and the examples state its wording |
| FileUploader.UploadSummary | src/components/files/FileUploader.tsx:125-133 | the headline followed by the deduplication note; UploadSummarySingle and UploadSummaryPair give its text |
| FileUploader.UploadHeadlineOne | src/components/files/FileUploader.tsx:130 | the headline for one file is "1 file uploaded successfully" |
| FileUploader.UploadHeadlineTwo | src/components/files/FileUploader.tsx:130 | the headline for two files is "2 files uploaded successfully" |
| FileUploader.DedupNoteOne | src/components/files/FileUploader.tsx:131 | one deduplicated result gives the suffix " (1 deduplicated)" |
| FileUploader.UploadSummarySingle | src/components/files/FileUploader.tsx:125-133 | one plain result gives "1 file uploaded successfully" |
| FileUploader.UploadSummaryPair | src/components/files/FileUploader.tsx:125-133 | two results, one deduplicated, give "2 files uploaded successfully (1 deduplicated)" |
| FileUploader.FailedUploadsLeakTimers | src/components/files/FileUploader.tsx:92-163 | with line 86 removed and the catch as written, n failed uploads on one queue leave n intervals running on an idle queue, where a firing changes nothing |
| FileUploader.FailedUploadsStopTimers | src/components/files/FileUploader.tsx:92-163 | with the interval cleared on failure, n failed uploads leave no interval running |
| FileUploader.UploadQueue.constructor | src/components/files/FileUploader.tsx:30-31 | an empty queue, not uploading, no timers |
| FileUploader.UploadQueue.OnDrop | src/components/files/FileUploader.tsx:47-55 | the queue becomes `Enqueued`; upload state unchanged |
| FileUploader.UploadQueue.RemoveFromQueue | src/components/files/FileUploader.tsx:65-67 | the queue becomes `RemovedAt`, keeping the invariant |
| FileUploader.UploadQueue.ClearQueue | src/components/files/FileUploader.tsx:166-168 | only uploading items remain, so clearing outside an upload empties the queue |
| FileUploader.UploadQueue.StartUploadAsWritten | src/components/files/FileUploader.tsx:69-100 | as written: aborts iff the queue is empty; otherwise items become `Failed(Started(q), message)`, the upload ends, the "Upload failed" toast shows the TypeError's message, and no interval starts |
| FileUploader.UploadQueue.StartUpload | src/components/files/FileUploader.tsx:69-100 | with line 86 removed: aborts iff the queue is empty; otherwise every pending item starts, the batch is the pending files, and one more interval runs |
| FileUploader.UploadQueue.Tick | src/components/files/FileUploader.tsx:92-100 | the queue becomes `Ticked`, and stays as it was when no upload is in flight |
| FileUploader.UploadQueue.CompleteUpload | src/components/files/FileUploader.tsx:102-140 | results applied by position, interval stopped, the "Upload completed!" toast with the summary, the parent told (`onUploadComplete`), sweep scheduled |
| FileUploader.UploadQueue.FailUploadAsWritten | src/components/files/FileUploader.tsx:142-163 | uploading items fail with the message; the "Upload failed" toast; not uploading; the interval count is unchanged, so timers no longer match the upload state |
| FileUploader.UploadQueue.FailUpload | src/components/files/FileUploader.tsx:142-163 | as FailUploadAsWritten, and the interval is stopped (corrected); the parent is not told |
| FileUploader.UploadQueue.Sweep | src/components/files/FileUploader.tsx:137-140 | the queue becomes `Swept` |
| FilesPage.PageChangeAccepted | src/pages/FilesPage.tsx:44 | the guard `newPage >= 1 && newPage <= totalPages` |
| FilesPage.PageAfterDelete | src/pages/FilesPage.tsx:49-56 | page 1 when the only row of a later page was deleted, the current page otherwise |
| FilesPage.PageAfterDeleteExamples | src/pages/FilesPage.tsx:49-56 | the last row of page 3 goes back to page 1; other deletes reload in place |
| FilesPage.PaginationShown | src/pages/FilesPage.tsx:90 | the pagination card appears only when there is more than one page |
| FilesPage.PrevDisabled | src/pages/FilesPage.tsx:103 | Previous is disabled on page 1 or below, or while loading |
| FilesPage.NextDisabled | src/pages/FilesPage.tsx:141 | Next is disabled on the last page or beyond, or while loading |
| FilesPage.PageButton | src/pages/FilesPage.tsx:111-120 | the four-way choice of the i-th button's page number |
| FilesPage.PageWindow | src/pages/FilesPage.tsx:110 | `Array.from({ length: Math.min(5, totalPages) })` of PageButton; PageWindowSpec states its shape |
| FilesPage.PageWindowSpec | src/pages/FilesPage.tsx:110-120 | min(5, totalPages) consecutive numbers, all real pages, including the current page when it is one |
| FilesPage.ButtonsAgreeWithGuard | src/pages/FilesPage.tsx:43-47 | every window button leads to an accepted page; Previous/Next are enabled iff the guard accepts their target |
| FilesPage.PageWindowExamples | src/pages/FilesPage.tsx:110-120 | near the start, in the middle and at the end of ten pages |
| FilesPage.RangeStart | src/pages/FilesPage.tsx:94 | `(currentPage - 1) * pageSize + 1` |
| FilesPage.RangeEnd | src/pages/FilesPage.tsx:95 | `Math.min(currentPage * pageSize, totalFiles)` |
| FilesPage.RangeLabel | src/pages/FilesPage.tsx:94-95 | the "Showing X to Y of Z files" text; RangeLabelExample gives one |
| FilesPage.RangeBounds | src/pages/FilesPage.tsx:94-95 | on a non-empty page the range lies within the files and counts the page's rows |
| FilesPage.RangesTile | src/pages/FilesPage.tsx:94-95 | the next page's range starts right after a full page's range ends |
| FilesPage.RangeLabelExample | src/pages/FilesPage.tsx:94-95 | page 3 of 41 files reads "Showing 41 to 41 of 41 files" |
| FilesPage.FilesView.constructor | src/pages/FilesPage.tsx:11-15 | empty list, loading, page 1 of 1, no files |
| FilesPage.FilesView.FetchFiles | src/pages/FilesPage.tsx:20-37 | requests the list path for the page; the new state is `AfterFetch`: success replaces the list and takes the server's pagination, failure keeps the state and shows the error, loading ends false |
| FilesPage.FilesView.Mount | src/pages/FilesPage.tsx:39-41 | the first load asks for page 1 and leaves the `AfterFetch` state |
| FilesPage.FilesView.HandlePageChange | src/pages/FilesPage.tsx:43-47 | fetches iff 1 ≤ page ≤ totalPages, leaving the `AfterFetch` state; otherwise changes nothing |
| FilesPage.FilesView.HandleFileDeleted | src/pages/FilesPage.tsx:49-56 | reloads the page PageAfterDelete chooses and leaves the `AfterFetch` state |
| SearchFilters.Get | src/components/dashboard/SearchFilters.tsx:19-26 | the field of the record a key names |
| SearchFilters.With | src/components/dashboard/SearchFilters.tsx:29-32 | sets one field and leaves the other five unchanged |
| SearchFilters.NormalizeInput | src/components/dashboard/SearchFilters.tsx:31 | "" becomes undefined, every other value is kept |
| SearchFilters.IsActive | src/components/dashboard/SearchFilters.tsx:52-60 | the test `value !== "" && value !== undefined` |
| SearchFilters.ActiveCount | src/components/dashboard/SearchFilters.tsx:56-60 | getActiveFilterCount, at most six; ActiveCountByField gives it field by field |
| SearchFilters.HasActiveFilters | src/components/dashboard/SearchFilters.tsx:52-54 | some field is active; HasActiveIffCount ties it to the count |
| SearchFilters.CountActive | src/components/dashboard/SearchFilters.tsx:56-60 | the count is at most the number of values |
| SearchFilters.CountActivePositive | src/components/dashboard/SearchFilters.tsx:52-60 | the count is positive iff some value is active |
| SearchFilters.HasActiveIffCount | src/components/dashboard/SearchFilters.tsx:52-60 | hasActiveFilters holds iff the active count is positive |
| SearchFilters.ActiveCountByField | src/components/dashboard/SearchFilters.tsx:56-60 | the count is the sum over the six fields |
| SearchFilters.ActiveCountAfterWith | src/components/dashboard/SearchFilters.tsx:28-33 | an edit changes the count by the edited field alone |
| SearchFilters.CountMatchesQuery | src/components/dashboard/SearchFilters.tsx:56-60 | without nulls, the active count equals the number of query entries sent |
| SearchFilters.ActiveCountIsQuerySize | src/components/dashboard/SearchFilters.tsx:56-60 | the same for a whole filter record |
| SearchFilters.InitialHasNoActiveFilter | src/components/dashboard/SearchFilters.tsx:19-26 | the initial record `Initial` (three "" strings, two undefined sizes, and "" for `mime_type`) has no active filter and sends no query entry |
| SearchFilters.PresetBounds | src/components/dashboard/SearchFilters.tsx:224-256 | each preset leaves one bound open or orders min below max |
| SearchFilters.ApplyPreset | src/components/dashboard/SearchFilters.tsx:224-256 | sets exactly the two size bounds of the preset |
| SearchFilters.PresetValues | src/components/dashboard/SearchFilters.tsx:224-256 | the presets are (undefined, 1048576), (1048576, 10485760), (10485760, undefined) |
| SearchFilters.HasBadge | src/components/dashboard/SearchFilters.tsx:265-303 | only name, type, minimum and maximum size have a badge |
| SearchFilters.BadgeShown | src/components/dashboard/SearchFilters.tsx:267-294 | a badge shows for a truthy value of a field that has one |
| SearchFilters.BadgeImpliesActive | src/components/dashboard/SearchFilters.tsx:265-303 | a shown badge belongs to an active filter |
| SearchFilters.ActiveWithoutBadge | src/components/dashboard/SearchFilters.tsx:285 | a 0 size is active yet has no badge; dates never have a badge |
| SearchFilters.RemoveBadge | src/components/dashboard/SearchFilters.tsx:272-299 | the X calls handleInputChange with "" or undefined; RemoveBadgeSpec states its effect |
| SearchFilters.RemoveBadgeSpec | src/components/dashboard/SearchFilters.tsx:272-299 | removing a badge deactivates that field only and lowers the count by one |
| SearchFilters.FilterPanel.constructor | src/components/dashboard/SearchFilters.tsx:19-26 | starts from the initial record |
| SearchFilters.FilterPanel.HandleInputChange | src/components/dashboard/SearchFilters.tsx:28-33 | stores the normalised value in the field |
| SearchFilters.FilterPanel.HandleSearch | src/components/dashboard/SearchFilters.tsx:35-37 | submits the current record unchanged |
| SearchFilters.FilterPanel.ClearFilters | src/components/dashboard/SearchFilters.tsx:39-50 | resets to and submits the initial record, which has no active filter |
| SearchFilters.FilterPanel.ApplySizePreset | src/components/dashboard/SearchFilters.tsx:224-256 | the record becomes ApplyPreset |
| SearchFilters.FilterPanel.ClickBadgeX | src/components/dashboard/SearchFilters.tsx:270-300 | the record loses that filter; the active count drops by one |
| SearchPage.FoundMessage | src/pages/SearchPage.tsx:33 | "Found N file[s] matching your criteria", singular for exactly one |
| SearchPage.CompletionToast | src/pages/SearchPage.tsx:26-35 | the toast is shown iff some parameter is active, with the found count |
| SearchPage.SearchSummary | src/pages/SearchPage.tsx:55-67 | getSearchSummary; SearchSummarySpec states its cases |
| SearchPage.SearchSummarySpec | src/pages/SearchPage.tsx:55-67 | no summary before a search; "Showing all files" iff nothing is active; otherwise the count with "filters" iff above one |
| SearchPage.ToastAgreesWithSummary | src/pages/SearchPage.tsx:26-35 | the toast appears iff the summary counts some filter |
| SearchPage.SearchSummaryExamples | src/pages/SearchPage.tsx:55-67 | null, "Showing all files", "Search results for 1 filter" |
| SearchPage.FoundMessageOne | src/pages/SearchPage.tsx:33 | one result gives "Found 1 file matching your criteria" |
| SearchPage.FoundMessageNone | src/pages/SearchPage.tsx:33 | no result gives "Found 0 files matching your criteria" (plural for zero) |
| SearchPage.SearchView.constructor | src/pages/SearchPage.tsx:11-14 | no results, not loading, no search yet |
| SearchPage.SearchView.HandleSearch | src/pages/SearchPage.tsx:16-46 | records the params whatever the outcome; sends their query; success shows the results, failure empties them; loading ends false |
| SearchPage.SearchView.HandleFileDeleted | src/pages/SearchPage.tsx:48-53 | re-runs exactly the last params, with HandleSearch's results, toast, `hasSearched` and loading; does nothing before any search |
| FileList.Capitalize | src/components/files/FileList.tsx:63 | keeps the length and everything after the first character |
| FileList.CapitalizeRoundTrip | src/components/files/FileList.tsx:63 | on a word starting with a lower-case letter, lower-casing the first letter of the result gives the word back |
| FileList.FileTypeLabel | src/components/files/FileList.tsx:61-64 | the capitalised MIME class; FileTypeLabelSpec states its values |
| FileList.FileTypeLabelSpec | src/components/files/FileList.tsx:61-64 | one of six labels; lower-casing its first letter gives back the class |
| FileList.FileTypeLabelInjective | src/components/files/FileList.tsx:61-64 | equal labels mean equal classes |
| FileList.DeleteGuard.constructor | src/components/files/FileList.tsx:37 | no delete in flight |
| FileList.DeletedMessage | src/components/files/FileList.tsx:86 | "<filename> has been removed from your vault" |
| FileList.DeleteDisabled | src/components/files/FileList.tsx:222 | a row's Delete is disabled while its id is in the set |
| FileList.DeleteGuard.BeginDelete | src/components/files/FileList.tsx:78-80 | starts iff the id is not in flight; the id is in the set afterwards |
| FileList.DeleteGuard.FinishDelete | src/components/files/FileList.tsx:82-101 | the id leaves the set on success and failure; the parent is told iff the delete succeeded |
| FileList.DeleteGuard.HandleDelete | src/components/files/FileList.tsx:77-102 | a delete of an id in flight is a no-op; a finished one leaves the set as it was |
| FileList.OverlappingDeletes | src/components/files/FileList.tsx:77-102 | a second click on a file in flight is refused, and finishing one delete keeps the other in the set |
| DashboardLayout.IsActiveRoute | src/components/layout/DashboardLayout.tsx:48-53 | "/dashboard" matches only itself, every other link is a prefix match |
| DashboardLayout.FirstActive | src/components/layout/DashboardLayout.tsx:149 | `find` returns the first active item, or none when no item is active |
| DashboardLayout.AtMostOneActive | src/components/layout/DashboardLayout.tsx:31-53 | with the four-item `Navigation` table as given, no path makes two items active |
| DashboardLayout.HeaderTitle | src/components/layout/DashboardLayout.tsx:149 | the found item's name, falling back to "Dashboard"; HeaderTitleSpec states its value |
| DashboardLayout.HeaderTitleSpec | src/components/layout/DashboardLayout.tsx:149 | the title is the active item's name, or "Dashboard" when none is active |
| DashboardLayout.HeaderTitleExamples | src/components/layout/DashboardLayout.tsx:48-53 | "/dashboard" exact; "/dashboard/files/123" is My Files; "/dashboard/uploads" matches Upload Files by prefix; "/dashboard/" is none |

## Left out

- localStorage, `window.location` (the redirect to /login after a 401), `fetch`, `FormData` and
  `DataTransfer`. The token is a field, and requests and replies are values.
- Percent-encoding by `URLSearchParams`. The search request carries its list of (key, value)
  pairs.
- The scheduling of `setInterval`/`setTimeout` and async interleaving. Tick and sweep are
  explicit operations, and each handler runs to completion against the outcome it is given.
- Toast rendering. The toast texts are modelled only where listed: upload summary, search
  completion, search and delete failures.
- JSX rendering and CSS beyond the conditions that gate buttons and badges.
- react-dropzone size and count validation. Accepted files are an input.
- `formatFileSize`, `formatBytes` and `formatDate`: floating point and locale formatting.
- `download`, `preview`, `getStats`, `login`, `register` and `logout`. They are outside the
  modelled core.
- The size inputs' `parseInt` (including NaN). The model takes the resulting value.
- Api.ListEndpointDetermined: proved only for non-negative page numbers. A negative page's
  leading "-" is not covered by the parse-back argument.
- FileList.Capitalize: upper-cases ASCII letters only, which covers the six class names it is
  applied to. Full Unicode case mapping is not modelled.
- FileUploader.UploadQueue.FailUpload: clears the progress interval, which the source's catch
  does not. FileUploader.UploadQueue.FailUploadAsWritten follows the source.
- FileUploader.UploadQueue.StartUpload: models `uploadFiles` with line 86 (`new FileList()`)
  removed, because as written that line throws before any request.
  FileUploader.UploadQueue.StartUploadAsWritten follows the source. Both require that no
  upload is in flight. This is the disabled-button guard, not a check in the source function.
- FileUploader.UploadQueue.StartUploadAsWritten: the TypeError's message is a parameter,
  because browsers word it differently.
- Common.IntToString: renders unbounded integers. JavaScript numbers are doubles, so from 1e21
  up the source would render exponent notation, and above 2^53 it would lose precision.
  Counts of files, pages and filters stay far below both.

## Findings

| source | as written | input that shows it | evidently intended | confidence | as-written member | corrected member |
|---|---|---|---|---|---|---|
| src/lib/api.ts:166-170 | `files.upload` passes `headers: {}` to `apiRequest`. The spread merge keeps the default `Content-Type: application/json`. | Any upload, for example one file with a stored token: the multipart form goes out labelled `application/json`. | The comment at line 169: no client Content-Type, so the browser sets multipart/form-data with its boundary. | not executed; high | Api.UploadContentTypeAsWritten | Api.RequestHeadersFor |
| src/components/files/FileUploader.tsx:86 | `new FileList()` runs inside the `try`, after the pending items are marked uploading. The DOM `FileList` interface has no constructor, so browsers throw a TypeError ("Illegal constructor"). The variable is never used. | Any upload of a non-empty queue: every started item becomes an error with the TypeError's message, and neither the interval nor the request is created. | Drop the line; `dt.files` is the FileList to send. | not executed; high | FileUploader.StartFailsEveryUploadAsWritten | FileUploader.UploadQueue.StartUpload |
| src/components/files/FileUploader.tsx:92-103 | `clearInterval` runs only on the success path. When `files.upload` throws, the catch and finally blocks (142-163) leave the interval running. This path is reached only once line 86 is removed (previous row). | With line 86 removed, two uploads whose request fails (a 500 reply): two progress intervals keep firing afterwards. | Stop the progress interval whenever the upload ends. | not executed; high | FileUploader.FailedUploadsLeakTimers | FileUploader.FailedUploadsStopTimers |
