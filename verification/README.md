# Manim video client: job orchestration, modelled in Dafny

This project models the job-orchestration client of a browser front end for a
remote video renderer. The client validates a generation request and submits
it. It then polls the job's status, reporting every snapshot to a progress
callback, until the job is `ready` or `not_found`, the caller aborts, or a
query fails. Most failures are translated into an `ApiError` carrying a
message, a numeric status and an optional payload. Three paths instead reject
with the engine's own `TypeError`; they are listed below. The model also
covers the batch delete and the two updates the application makes to its
video library.

Modules, one per source file:

- `ApiConfig` (`api_config.dfy`) models `src/services/apiConfig.js`: the base
  URL, the timeout, the poll interval, the quality options and the status tags.
- `ApiUtils` (`api_utils.dfy`) models `src/services/apiUtils.js`: the `Error`
  datatype with its `ApiError` variant, `HandleApiResponse` and `CreateApiUrl`.
- `ManimApi` (`manim_api_service.dfy`) models `src/services/ManimApiService.js`.
  The validation and wrapping of each operation are functions. The class
  `ManimApiService` holds the three configuration fields its constructor sets.
  Its `PollVideoStatus` is a loop proved against the specification `PollFrom`.
  For a falsy id that is not cancelled at the first check point, `PollFrom`
  settles at once with the 400 of `getVideoStatus`, needing no reply.
  Otherwise it is the recursive `PollOver`, the poller's decisions over the
  answers its status queries get, applied to `Queries`, the `getVideoStatus`
  call answered at each check point. The lemmas about the poller hold for any
  query answers shaped like those of `getVideoStatus` (`AnsweredBy`).
  `GenerateVideoWithPolling` submits, checks the response, and polls.
- `VideoLibrary` (`video_library.dfy`) models the two list updaters in
  `src/App.jsx`.
- `JsValue` (`js_value.dfy`) holds the JavaScript semantics the code relies on.
  These are values, truthiness, `===`, conversion to string and `trim`.

The network is a parameter. Each transport call is answered by one `Outcome`:
`Replied(response)`, `Aborted` or `NetworkFailure(message)`. Every single-job
operation, the poll and the workflow return how they settled together with
the requests they handed to the transport, so "no transport call was made"
reads `sent == []`. `DeleteMultipleVideos` returns only its reports, one per
id; each report is defined by that id's `DeleteVideo` call. The abort signal is a
`seq<bool>`; entry `k` is what `signal.aborted` reads at the poller's `k`-th
check point.

Where the intended design and the code differ, the model follows the code:

- A caller abort during submission surfaces as 408, not 499.
  `fetchWithTimeout` turns every `AbortError` into `ApiError('Request timeout',
  408)`, so the 499 branch in `generateVideo`'s catch can never fire. It is
  modelled as written (`CatchGeneration`). `GenerateVideoAbortIsTimeout` proves
  that a 499 from submission can only be a 499 the server sent.
- The `error` tag is not terminal: the poller keeps querying past it
  (`ErrorTagKeepsPolling`).
- A failed status query is not retried: it ends the poll with its error.
- Cancellation is checked only before each query, not during the wait between
  queries.
- `createApiUrl` takes one argument, so `getApiStatus`'s two-argument call
  builds the URL `BASE_URL + BASE_URL` (`GetApiStatus`).
- Not every failure is an `ApiError`. Three paths reject with the engine's
  `TypeError`, unwrapped:
  - a truthy prompt that is not a string, whose `trim` is not a function
    (`PrepareGeneration`, `GenerateVideoValidation`);
  - a null or undefined submission response, whose `status` cannot be read
    (`CheckSubmission`);
  - a null or undefined status snapshot, whose `status` cannot be read
    (`Decide`, `PollNativeRejection`).

## Model

| member | source | states |
|---|---|---|
| `ApiConfig.BaseUrl` | src/services/apiConfig.js:2 | the base URL is the build variable when set, the local default otherwise, and never empty |
| `ApiConfig.QualityOptionsExact` | src/services/apiConfig.js:8-12 | exactly three quality options, pairwise distinct: `low`, `medium`, `high` |
| `ApiConfig.DefaultQualityIsOption` | src/services/apiConfig.js:4 | the default quality is `medium`, which is one of the options, so the default passes the quality check |
| `ApiConfig.VideoStatusDistinct` | src/services/apiConfig.js:14-19 | four pairwise distinct status tags |
| `ApiConfig.TimingConstants` | src/services/apiConfig.js:3-5 | timeout and poll interval are positive and the interval is shorter than the timeout |
| `ApiUtils.NewApiError` | src/services/apiUtils.js:3-10 | an `ApiError` keeps the given message and status, is named `ApiError`, and its payload defaults to null |
| `ApiUtils.HandleApiResponse` | src/services/apiUtils.js:12-22 | a non-OK response always becomes an `ApiError` with the response's own status and the parsed body (null if unparsable) as payload; an OK response yields its parsed body unchecked, or the parser's `SyntaxError` |
| `ApiUtils.HandleApiResponseMessage` | src/services/apiUtils.js:16 | the error message is the body's `detail` when that is a non-empty string, any other truthy `detail` rendered by `String(...)`, and `HTTP <status>: <statusText>` when the body does not parse or its `detail` is missing or falsy (null, false, 0, empty) |
| `ApiUtils.HandleApiResponseObjectDetail` | src/services/apiUtils.js:16 | a 422 whose `detail` is a list of two error objects gets the message `[object Object],[object Object]` and keeps its status and body |
| `JsValue.NatToString` | src/services/apiUtils.js:16 | the status is written in decimal digits, one digit exactly below ten, with a leading zero only for zero |
| `JsValue.NatToStringValue` | src/services/apiUtils.js:16 | round trip: the digits written for the status denote the status |
| `JsValue.JoinTwoObjects` | src/services/apiUtils.js:16 | an array of two objects converts to the string `[object Object],[object Object]` |
| `ApiUtils.CreateApiUrl` | src/services/apiUtils.js:24-26 | the base URL is a prefix and the endpoint the matching suffix of the URL |
| `ManimApi.ManimApiService.constructor` | src/services/ManimApiService.js:6-10 | the fields hold the configured base URL (never empty), the 300000 ms timeout and the 2000 ms poll interval |
| `ManimApi.FetchWithTimeout` | src/services/ManimApiService.js:18-41 | exactly one transport call; an abort becomes `ApiError('Request timeout', 408)`; every other error is rethrown unchanged, so a failed response keeps its status; nothing it rejects with is an `AbortError` |
| `ManimApi.WrappedFetch` | src/services/ManimApiService.js:102-107 | one call, which settles per the status table `SettlesAs`: the OK JSON body, or an `ApiError` prefixed `Failed to <operation>: ` with the response's status (500 when none or zero, 408 for an abort) |
| `ManimApi.GetApiStatus` | src/services/ManimApiService.js:44-51 | the single request goes to `BASE_URL + BASE_URL`, because `createApiUrl` ignores its second argument; failures are wrapped per the status table |
| `ManimApi.GetAiStatus` | src/services/ManimApiService.js:54-61 | one GET to `/ai-status`; failures are wrapped per the status table |
| `ManimApi.PrepareGeneration` | src/services/ManimApiService.js:64-79 | an accepted request has a string prompt and a listed quality, and its body is the trimmed prompt, the quality (default `medium`) and `use_ai` (default `true`); every `ApiError` it raises is a 400 |
| `ManimApi.GenerateVideo` | src/services/ManimApiService.js:64-94 | a rejected request makes no transport call; an accepted one makes exactly one POST of the prepared body to `/generate-video` and settles per the status table |
| `ManimApi.GenerateVideoValidation` | src/services/ManimApiService.js:65-71 | no transport call exactly when the prompt is missing, not a string or blank, or the quality is not an option; a missing or blank prompt rejects 400 `Prompt is required`; a truthy prompt that is not a string rejects with the engine's `TypeError`, unwrapped; a bad quality rejects 400 naming the quality |
| `ManimApi.GenerateVideoBody` | src/services/ManimApiService.js:75-79 | the sent body has exactly the keys `prompt`, `quality` and `use_ai`; the prompt is the non-empty trimmed prompt with no whitespace at either end; the quality is the given one or `medium`; `use_ai` is the given `useAi` or `true` |
| `ManimApi.GenerateVideoAbortIsTimeout` | src/services/ManimApiService.js:88-92 | an aborted submission rejects with 408 `Failed to generate video: Request timeout`; a 499 rejection can only carry a 499 sent by the server |
| `ManimApi.GetVideoStatus` | src/services/ManimApiService.js:97-108 | a missing id rejects 400 with no transport call; otherwise one GET to `/status/<id>`, settling per the status table |
| `ManimApi.DownloadVideo` | src/services/ManimApiService.js:111-128 | a missing id rejects 400 with no call; otherwise one GET to `/download/<id>`; resolves with the raw response exactly when it is OK; a failed response keeps its status under `Failed to download video: Download failed: <statusText>`; abort and network failure give 500 |
| `ManimApi.DeleteVideo` | src/services/ManimApiService.js:131-142 | a missing id rejects 400 with no transport call; otherwise one DELETE to `/delete/<id>`, settling per the status table |
| `ManimApi.Decide` | src/services/ManimApiService.js:160-167 | `ready` resolves with the snapshot, `not_found` rejects 404, a null or undefined snapshot rejects with a `TypeError`, and every other tag polls again |
| `ManimApi.ErrorTagKeepsPolling` | src/services/ManimApiService.js:164-166 | a snapshot tagged `error` is not terminal |
| `ManimApi.QueryErrorIsNotCancellation` | src/services/ManimApiService.js:154 | a failed status query never rejects with the 499 cancellation or the 404 `Video not found` error |
| `ManimApi.StatusQueryShape` | src/services/ManimApiService.js:97-108 | a status query issues the job's status GET or nothing; it yields a snapshot only when the reply is an OK JSON response carrying it, and always does for such a reply when the id is present; it never fails with the poller's own 499 or 404 errors |
| `ManimApi.PollObservations` | src/services/ManimApiService.js:154-158 | the progress log is exactly the snapshots of consecutive replies, in observation order, one per query; every query is the job's status GET; there is at most one query more than reported snapshots, and such an extra query means the poll rejected |
| `ManimApi.PollPolledAgain` | src/services/ManimApiService.js:149-167 | every reported snapshot but the last polled again, and the last one too when the run ends cancelled or pending; the signal was clear at every check point before a reported snapshot |
| `ManimApi.PollFinalSnapshot` | src/services/ManimApiService.js:160-163 | resolution only with the last reported snapshot, tagged `ready`; rejection with the poller's own `Video not found` error only after a last snapshot tagged `not_found` |
| `ManimApi.PollCancelledOrPending` | src/services/ManimApiService.js:149-152 | rejection with the poller's own `Status polling was cancelled` error only when the signal is set at the check point after the last snapshot, with one query per snapshot and no more; pending only when every reply was consumed and the last check point was not aborted |
| `ManimApi.PollRejectionOrigin` | src/services/ManimApiService.js:149-170 | any other `ApiError` rejection is the error of the status query at the check point after the last snapshot; if its status is not 400, 408 or 500 (a 404 or 499, say), it is the status of the server's reply to that query |
| `ManimApi.PollNativeRejection` | src/services/ManimApiService.js:160-170 | a rejection of the poll that is not an `ApiError` is the `TypeError` of a last reported snapshot that is null or undefined |
| `ManimApi.PollMissingId` | src/services/ManimApiService.js:98-100 | a poll without an id settles at its first check point: cancelled, or the 400 `Video ID is required`; it reports nothing, issues no request and needs no reply; where a reply is left, the run is the one the status query itself gives |
| `ManimApi.PollCancelled` | src/services/ManimApiService.js:149-152 | with the signal first set at check point `m`, after snapshots that polled again, the poll rejects 499 having issued one query and reported one snapshot per earlier check point, and nothing from `m` on |
| `ManimApi.PollFailedQuery` | src/services/ManimApiService.js:168-170 | a failed status query ends the poll with that query's error, with no retry |
| `ManimApi.PollThreeGeneratingThenReady` | src/services/ManimApiService.js:147-174 | three `generating` snapshots then `ready`: four progress reports in order, four queries, resolved with the fourth |
| `ManimApi.ManimApiService.PollVideoStatus` | src/services/ManimApiService.js:145-175 | the loop's outcome, progress log and queries are those of the specification `PollFrom`, a missing id rejecting 400 before any reply is needed |
| `ManimApi.CheckSubmission` | src/services/ManimApiService.js:194-196 | the submission is accepted exactly when the response is an object with `status === 'success'` and a truthy `video_id`, which is the job to poll; a null or undefined response rejects with the engine's `TypeError`; any other response rejects with 500 `Video generation failed` carrying the response |
| `ManimApi.WithFinalStatus` | src/services/ManimApiService.js:205-208 | the result has every field of the submission response plus `finalStatus` |
| `ManimApi.ManimApiService.GenerateVideoWithPolling` | src/services/ManimApiService.js:178-212 | a failed submission rejects with its own error, unchanged, and polls nothing; a response the check rejects ends the workflow with the check's error and polls nothing; otherwise the poll of that job decides, with its progress log, after the submission request |
| `ManimApi.WorkflowCancelledBeforePolling` | src/services/ManimApiService.js:194-203 | an accepted submission whose signal is already set when polling starts makes the workflow reject with the 499 cancellation, with no progress reported and no status query |
| `ManimApi.WorkflowResolvedCarriesReady` | src/services/ManimApiService.js:199-208 | a resolved workflow keeps the submission fields, and its `finalStatus` is the last reported snapshot, tagged `ready` |
| `ManimApi.DeleteMultipleVideos` | src/services/ManimApiService.js:236-246 | one report per id in input order, with the id, `success` exactly when that delete fulfilled, and the rejection's message or null |
| `ManimApi.DeleteIsolation` | src/services/ManimApiService.js:237-239 | changing what happens to one delete changes no other delete's report |
| `ManimApi.DeleteTwoMixed` | src/services/ManimApiService.js:241-245 | a failing then a succeeding delete report `[failure with message, success with null]`, in that order |
| `JsValue.TrimEmptyIffBlank` | src/services/ManimApiService.js:65 | `prompt.trim().length === 0` exactly when the prompt is all whitespace |
| `JsValue.TrimIsInnerSlice` | src/services/ManimApiService.js:76 | the trimmed prompt is the slice between the leading and trailing whitespace and does not start or end with whitespace |
| `JsValue.TrimIdempotent` | src/services/ManimApiService.js:76 | trimming twice equals trimming once |
| `VideoLibrary.AddGeneratedPrepends` | src/App.jsx:56 | the new video comes first, followed by the unchanged library, one entry longer |
| `VideoLibrary.RemoveDeleted` | src/App.jsx:61 | no remaining entry has the deleted id, and every remaining entry was in the library |
| `VideoLibrary.RemoveDeletedDistributes` | src/App.jsx:61 | the filter keeps relative order: filtering a concatenation concatenates the filtered parts |
| `VideoLibrary.RemoveDeletedCounts` | src/App.jsx:61 | each entry with another id is kept as often as it occurs; entries with the deleted id are all gone |
| `VideoLibrary.RemoveDeletedAbsent` | src/App.jsx:61 | deleting an id no entry has leaves the library unchanged |
| `VideoLibrary.RemoveDeletedIdempotent` | src/App.jsx:61 | deleting twice gives the same result as deleting once |

## Left out

- Real I/O is not modelled: `fetch`, `response.json()`, `JSON.stringify`, the
  request headers, `setTimeout`/`clearTimeout`, `AbortController` and
  `Promise.allSettled`. The transport is one given `Outcome` per call. The
  request body is the value before serialisation.
- Wall-clock timing is not modelled. This covers the 300000 ms timeout, the
  2000 ms wait between queries, the bypass of the timeout controller when a
  caller signal is supplied, and the fact that the status query is not given
  the signal. How the signal reaches the submission's transport call is not
  modelled either; the submission's `Outcome` says what happened.
- `ManimApi.ManimApiService.PollVideoStatus` stops when the given replies run
  out before a status query that needs one. That run is `Pending`, where the
  code would keep polling forever. A poll without an id needs no reply and
  still rejects with 400.
- Number values are integers. Non-integral JSON numbers and `NaN` are not
  modelled.
- `JsValue.IntToString` writes every integer in plain decimal digits.
  JavaScript numbers are doubles, so integers above 2^53 lose precision, and
  `String(n)` uses exponent form once |n| reaches 1e21. Those renderings
  differ.
- A progress callback that throws is not modelled. When no callback is given,
  the progress log is what a callback would have received.
- `JsValue.ToJsString` renders every object as `[object Object]`. In the code,
  `String(...)` of a parsed JSON object with its own `toString` key throws a
  `TypeError` instead, because that key is not a function and the inherited
  `valueOf` returns an object. Joining an array that holds such an object
  throws too. Such keys are not modelled. A failed response whose `detail` is
  such a value makes `handleApiResponse` throw that `TypeError` instead of an
  `ApiError` with the response's status. The wrapping operations then report
  it with status 500. So `ApiUtils.HandleApiResponse` and
  `ApiUtils.HandleApiResponseMessage` hold only for `detail` values without
  an own `toString` key.
- Arrays and objects are never `===` to anything, because reference identity is
  not modelled.
- The order of keys in the combined result object is not modelled; objects
  are maps.
- The wording of the engine's TypeError messages (`Cannot read properties of
  null (reading 'status')`, `prompt.trim is not a function`) follows V8. The
  `AbortError` message is the default message of the `DOMException` that an
  abort raises, as the WHATWG Fetch and DOM standards define it.
- `ManimApi.DeleteMultipleVideos` takes one transport reply per id. The
  interleaving of the concurrent deletes is not modelled, only that each
  settles on its own.
- `downloadVideoBlob` is not modelled. It is DOM and blob plumbing.
- `healthCheck` is not modelled. Its timer is never attached to a request.
- `createAbortController` is not modelled. It only returns a fresh controller.
- The destructured method exports are not modelled. They are a module-binding
  concern.
- `src/services/ApiService.js` is entirely commented out, so there is nothing
  to model there.
- The React components are not modelled: rendering, toasts and component
  state.
