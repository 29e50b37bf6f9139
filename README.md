# Pogodoc TypeScript SDK: orchestration layer and build helper, modelled in Dafny

This project models the three parts of the Pogodoc TypeScript SDK that hold
control flow of their own, and proves what they do.

- **`PogodocClient` (src/index.ts).** This is the orchestration layer over the
  generated API client. It covers:
  - resolving the token and base URL at construction;
  - the two template pipelines (create a template, update a template);
  - immediate rendering;
  - starting a render job, with its conditional uploads;
  - polling a job until it is done;
  - `generateDocument`, which starts a job and then polls it.
- **`uploadToS3WithUrl` (src/utils.ts).** One PUT of a stream to a presigned
  URL. It builds the headers conditionally and replaces any failure with one
  uniform error.
- **The build helper install-imports.js.** It normalizes module specifiers to
  npm package names, walks a directory tree for source files, collects the
  distinct package names, and decides whether to run `npm install`.

The remote side is an oracle, the class `Remote.Service`:

- The generated API client, the object store behind the presigned URLs and
  the timer are all parts of it.
- Every call made to it is appended to an append-only `trace` of `Event`s.
- Each endpoint answers from its own queue of scripted replies in `script`.
  A reply is either a value or a thrown error.
- A call beyond the end of its queue gets a timeout error.

Each client method is an imperative method against this oracle. Its
postcondition says that the method appends exactly the events of a workflow
function (`Workflows.CreateTemplateRun`, `Workflows.StartGenerateRun`,
`Polling.PollRun`, …) to the trace, uses up exactly the replies those events
consume, and returns that function's result. The lemmas about those functions
then state the call counts, orderings and results.

Modules:

- `Wrappers`: `Option`, `Result` and JavaScript truthiness of an optional string.
- `Types`: the enumerations and records of types.ts, the optional fields of
  `InitializeRenderJobResponse`, and the request and response shapes the layer
  builds or reads.
- `Remote`: the trace events, the reply script and the `Service` oracle.
- `Upload`: `uploadToS3WithUrl`.
- `Polling`: `pollForJobCompletion`.
- `Workflows`: the workflow functions and their lemmas.
- `Client`: configuration resolution and the `PogodocClient` class.
- `Text`: the JavaScript string operations the build helper uses.
- `InstallImports`: the build helper.

Where the doc comments of src/index.ts and its code disagree, the model
follows the code:

- **No XOR check.** The doc comments of `generateDocumentImmediate`,
  `generateDocument` and `startGenerateDocument` (src/index.ts:232,
  src/index.ts:262, src/index.ts:294) say the caller must provide either a
  `templateId` or a `template` string. The code checks neither, so the model
  accepts any combination. `Workflows.StartGenerateInitializesOnce` holds for
  all of them.
- **Starting does more than initialize.** The doc comment of
  `startGenerateDocument` (src/index.ts:288-300) says it only initializes the
  job and returns the initial job status. The code also makes the uploads,
  calls `startRenderJob` and returns that call's reply
  (src/index.ts:339-341). The model does the same.
- **Fields not forwarded.** `startRenderJob` is sent only
  `uploadPresignedS3Url`, taken from `renderConfig.personalUploadPresignedS3Url`
  (src/index.ts:339-341), so `shouldWaitForRenderCompletion` and
  `props.uploadPresignedS3Url` are never forwarded. The model sends only that
  one field.

## Model

| member | source | states |
|---|---|---|
| Client.ResolveConfig | src/index.ts:29-41 | The token is the option's when that is truthy, otherwise the environment's. Construction fails with the fixed "API token is required…" error iff neither is truthy. A resolved token is never empty. The base URL falls back from the option to the environment the same way, and may stay absent. |
| Client.ExplicitTokenWins | src/index.ts:30 | A truthy option token always resolves, and to the same token whatever the environment holds. |
| Client.PogodocClient.Create | src/index.ts:29-41 | Construction resolves the configuration with `ResolveConfig`. It fails exactly when that fails, with the same error. Otherwise the new client carries the resolved token and base URL. No call reaches the remote side either way. |
| Client.PogodocClient.SaveTemplateFromFileStream | src/index.ts:90-129 | The method appends exactly the events of `CreateTemplateRun` to the trace. It uses up exactly the replies they consume and returns that run's result. |
| Client.PogodocClient.UpdateTemplateFromFileStream | src/index.ts:182-223 | The method appends exactly the events of `UpdateTemplateRun` to the trace. It uses up exactly the replies they consume and returns that run's result. |
| Client.PogodocClient.GenerateDocumentImmediate | src/index.ts:241-255 | The method makes one `startImmediateRender` call. The request carries `template`, `templateId`, the render configuration's type, target and format options, and `data`, all passed through unchanged. The reply is returned as it is. |
| Client.PogodocClient.StartGenerateDocument | src/index.ts:303-342 | The method appends exactly the events of `StartGenerateRun` and returns its result. It does not touch the job-status replies. |
| Client.PogodocClient.GenerateDocument | src/index.ts:271-285 | The method appends exactly the events of `GenerateRun` (start, then poll the started job with the defaults 60 and 500) and returns its result. |
| Client.PogodocClient.PollForJobCompletion | src/index.ts:353-371 | The `for` loop with its attempt counter, early return and forced final fetch. It appends exactly the events of `PollRun` and uses up exactly the status replies they consume. It returns `PollRun`'s result. |
| Upload.UploadHeaders | src/utils.ts:13-19 | `Content-Length` is always present and equals the given length. `Content-Type` is present iff the content type is truthy, and then equals it. There are no other headers. |
| Upload.UploadRun | src/utils.ts:21-29 | The upload makes exactly one PUT, to the URL, with the stream and the headers. A successful response is returned unchanged. Any failure becomes the single error "Error uploading file with Axios". |
| Upload.UploadErrorIsUniform | src/utils.ts:26-29 | The upload's error does not depend on what the PUT failed with, and a failed upload is not retried. |
| Upload.UploadToS3WithUrl | src/utils.ts:6-30 | The imperative header construction and the try/catch. The method appends exactly `UploadRun`'s PUT, uses up one PUT reply and returns `UploadRun`'s result. |
| Polling.StopIndex | src/index.ts:360-368 | The fetch that ends polling is the first loop fetch that throws or is `"done"`, or the forced fetch once the budget is spent. No earlier fetch ends polling, and the index is at most the budget. |
| Polling.PollShape | src/index.ts:358-370 | Every poll makes one initial wait of 1000, then k rounds of a fetch and a wait of `intervalMs`, then the stopping fetch, whose reply is returned. That is k + 1 fetches and k + 1 waits, at most maxAttempts + 1 fetches, and no wait after the last fetch. |
| Polling.PollReturnsFirstDone | src/index.ts:360-365 | If the first `"done"` is at loop index k < maxAttempts, with no failure before it, that status is returned after exactly k + 1 fetches. |
| Polling.PollExhausted | src/index.ts:360-370 | If no loop fetch throws or is `"done"`, polling makes max(maxAttempts, 0) + 1 fetches. It returns the last reply whatever its status, and spending the budget throws nothing. With maxAttempts ≤ 0 the whole trace is the initial wait and one fetch. |
| Polling.PollPropagatesFailure | src/index.ts:361 | A fetch that throws inside the budget ends polling with that error, unchanged. It is the last event. |
| Polling.PollFetchesOnlyJob | src/index.ts:360-370 | Every status fetch of a poll is for the polled job. |
| Polling.PollStopsAt | src/index.ts:360-370 | A poll is determined by where it stops. If the first k fetches do not end polling, and the k-th does or the budget is spent, the run is k rounds plus the stopping fetch, and it returns that fetch's reply. |
| Polling.PollConsumes | src/index.ts:353-371 | A poll uses up exactly k + 1 status replies, k being the stop index, and no reply of any other endpoint. |
| Polling.PollLoop | src/index.ts:360-370 | The loop with r attempts left makes at least one event (the final fetch) and at most 2·max(r, 0) + 1: a fetch and a wait per remaining attempt, then the forced fetch. |
| Polling.PollRun | src/index.ts:353-371 | A poll starts with the wait of 1000 before any fetch. It makes at least 2 and at most 2·max(maxAttempts, 0) + 2 events. |
| Workflows.CreateTemplateSequence | src/index.ts:95-128 | When every step succeeds, creating makes exactly five calls in order: initialize; upload of the payload with its length and `application/zip`; extract; previews with the type and sample data; save. Each call after the first carries the initialized id. The save takes the png and pdf ids from the matching previews and the template info from the metadata. The result is the initialized id. |
| Workflows.UpdateTemplateSequence | src/index.ts:187-222 | Updating makes the same first four calls as creating. Its fifth call updates `props.templateId` with the initialized content id. It returns the content id. |
| Workflows.CreateTemplateStopsAtFailure | src/index.ts:95-128 | The pipeline stops at its first failing step, after exactly that many calls. It throws that step's error, or the uniform upload error for the upload. |
| Workflows.UpdateTemplateStopsAtFailure | src/index.ts:187-222 | The update pipeline stops at its first failing step, after exactly that many calls. It throws that step's error, or the uniform upload error for the upload; the final update call is made only when every earlier step succeeded. |
| Workflows.CreateTemplateRun | src/index.ts:95-128 | Creating makes between one and five calls, the first being the initialization. It succeeds iff initialization, upload, extraction, both previews and the save all succeed, and then returns the initialized template id. |
| Workflows.UpdateTemplateRun | src/index.ts:187-222 | Updating makes between one and five calls, the first being the initialization. It succeeds iff every step up to the update call succeeds, and then returns the initialized content id. |
| Workflows.InitRequestIgnoresTemplate | src/index.ts:309-314 | The initialization request is built from the render configuration and the caller's `templateId`. The inline template never affects it. |
| Workflows.StartGenerateInitializesOnce | src/index.ts:309-316 | For any props, including both, one or neither of `template` and `templateId`, the first call is the initialization with that request. It is the only initialization. |
| Workflows.StartGenerateSequence | src/index.ts:318-341 | When initialization succeeds and every upload that runs succeeds, the calls are in this order. First, the initialization. Second, the data upload, exactly when a data URL came back, with the JSON text, its length and `application/json`. Third, the template upload, exactly when there is a template and a template URL, with the template, its length and `text/html`. Last, `startRenderJob` for the initialized job id, with only the personal upload URL. Its reply, a value or an error, is returned unchanged. |
| Workflows.StartGenerateStopsAtFailure | src/index.ts:316-337 | If initialization throws, that error is returned after that one call. If the data upload fails, the uniform upload error is returned right after it. If the template upload fails, the uniform upload error is returned right after it, following the data upload when one ran. No later call is made in any of these cases. |
| Workflows.ImmediateRun | src/index.ts:247-254 | Immediate rendering makes exactly one `startImmediateRender` call. Its request carries `template`, `templateId` and `data` from the props and the type, target and format options from the render configuration, unchanged. The reply is returned as it is. |
| Workflows.StartGenerateRun | src/index.ts:309-341 | Starting makes between one and four calls, the first being the initialization with the request built from the props. An initialization error is returned unchanged. A successful start comes from a successful initialization, is `startRenderJob`'s reply, and that call is the last, for the initialized job id with the personal upload URL. |
| Workflows.GenerateRun | src/index.ts:277-284 | `generateDocument` begins with exactly the calls of starting the job, and succeeds only when starting succeeded. |
| Workflows.StartGenerateUploadCount | src/index.ts:321-337 | Starting a generation makes at most one upload per presigned URL that came back. It makes none when initialization throws. |
| Workflows.GenerateDocumentPollsStartedJob | src/index.ts:277-284 | `generateDocument` makes the start's calls first. If starting throws, that error is returned and nothing is polled. Otherwise the stopping fetch's reply is returned after k + 1 fetches. Every status fetch is for the job the start returned. |
| Text.Split | install-imports.js:49-61 | `split("/")` always gives at least one piece. No piece contains the separator, and joining the pieces back gives the text. |
| InstallImports.Normalize | install-imports.js:45-62 | A specifier that normalizes to a package name is neither relative nor built-in, and the name is a prefix of the specifier. |
| InstallImports.NormalizeSkipsRelative | install-imports.js:47 | A specifier starting with "." or "/" normalizes to null. |
| InstallImports.NormalizeSkipsBuiltins | install-imports.js:49-53 | A specifier that is a built-in, or whose first "/" segment is one, normalizes to null. |
| InstallImports.NormalizeScoped | install-imports.js:55-58 | A scoped specifier "@scope/pkg", alone or followed by a "/" path, normalizes to "@scope/pkg". |
| InstallImports.NormalizeRejectsBareScope | install-imports.js:56-57 | A scoped specifier with no second segment, or an empty one, normalizes to null. |
| InstallImports.NormalizeUnscoped | install-imports.js:61 | Any other non-empty specifier normalizes to its text before the first "/". That text is a non-empty prefix, contains no "/", and is followed by "/" or by the end. |
| InstallImports.NormalizeResultShape | install-imports.js:45-62 | A package name is a prefix of its specifier. It contains no "/" when unscoped, and exactly one when scoped. It is empty only for the empty specifier. |
| InstallImports.SourceFiles | install-imports.js:17-29 | Every file listed under a directory lies strictly below it, and its last segment has a source extension. |
| InstallImports.EntrySourceFiles | install-imports.js:18-26 | Every file one directory entry contributes lies strictly below the directory, and its last segment has a source extension. |
| InstallImports.Walk | install-imports.js:17-29 | The recursive `walk` appends to the file list the source files under a directory, in visiting order. |
| InstallImports.SourceFilesExact | install-imports.js:22-25 | `walk` lists exactly the files that end in .js, .jsx, .ts or .tsx and are reached through directories none of which is `node_modules` or dot-prefixed. |
| InstallImports.CollectPackages | install-imports.js:68-75 | The nested loops of `main` add each truthy normalized name to the insertion-ordered package set. |
| InstallImports.AddName | install-imports.js:72-73 | Adding a name keeps the set already there in front and grows it by at most one. |
| InstallImports.AddFile | install-imports.js:71-74 | Adding a file's specifiers keeps the set already there in front and grows it by at most one name per specifier. |
| InstallImports.Collect | install-imports.js:68-75 | Collecting over files keeps the starting set in front. |
| InstallImports.CollectSpec | install-imports.js:68-75 | The collected packages are distinct. They are exactly the non-empty names some specifier normalizes to, so null and "" are dropped. |
| InstallImports.Finish | install-imports.js:77-95 | Nothing is installed iff the set is empty. Otherwise there is one `npm install` of all the packages separated by spaces, and exit code 1 iff it fails. |
| InstallImports.ScanAndInstall | install-imports.js:64-96 | `main` walks the target directory (the argument when truthy, otherwise the working directory), collects the packages of every file's specifiers, and finishes as above. |

## Left out

- The file-path wrappers `saveTemplate` and `updateTemplate`. They only open a stream and stat a file before calling the stream methods, so they are not modelled. The payload is an opaque `Stream` with a separately given length.
- The generated Fern client, its HTTP transport and its error classes. They are the scripted oracle. Their options other than `token` and `baseUrl` are not modelled.
- `JSON.stringify` is the abstract parameter `stringify`. `Readable.from` is a `TextStream` holding the string.
- `template.length` and `dataString.length` count UTF-16 code units in JavaScript. The model uses the length of the character sequence.
- The `wait` helper is imported from src/utils.ts but is not defined in the file shown. It is modelled as a `Wait(ms)` trace event with no clock.
- PollForJobCompletion: a fractional, NaN or infinite `maxAttempts` is not modelled. The budget is an integer, and a negative one behaves as 0, as the loop test does. The JavaScript defaults 60 and 500 are not modelled for direct callers: the method takes both arguments, and only `generateDocument` supplies them, as `DefaultMaxAttempts` and `DefaultIntervalMs`.
- A call beyond the end of its scripted queue gets a timeout error. The real client's timeouts and retries are not modelled.
- Console output (`console.log`, `console.error`) is left out.
- In install-imports.js, `extractModules` and its regular expressions are left out. The specifiers of each file are the function parameter `extract`.
- `fs.readdirSync` and `fs.statSync` are replaced by an in-memory tree of `Node`s. Anything that is neither a directory nor a file is `Other`.
- Errors thrown by `fs.readdirSync` or `fs.statSync` (a broken symlink, `EACCES`) are not modelled, and neither are symlink cycles, through which `statSync` would let `walk` recurse forever. A finite `Node` tree has neither.
- `path.join` is appending a name to a list of path segments. Path normalization is not modelled.
- InstallImports.Walk returns the extended list instead of pushing into a shared array in place.
- `builtinModules` is the parameter `builtins`. The outcome of `execSync("npm install …")` is the parameter `npmSucceeds`, and `process.exit(1)` is the outcome `InstallFailed(command, 1)`.
