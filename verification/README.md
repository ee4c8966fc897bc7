# jsgo compile and playground server, modelled in Dafny

This project models the sequential decision logic of the jsgo server. The
server compiles Go packages to JavaScript for the browser, stores the results
in a content-addressed blob store and serves the play, compile and frizz
front ends. It is written in Go. Every collaborator is an outcome or an oracle
chosen by the caller. That covers the admission queue, the go-get downloader,
the compiler, the uploader, the blob store, the record store, hashing and
encoding. Each operation is a pure function from those outcomes to what the
server does: the messages it sends, the records it hands to the store, the
items it queues for upload, and the answer it returns.

Modules, one per concern, each in its own file:

- `Wrappers` (wrappers.dfy): `Option` and `Result`.
- `Strings` (strings.dfy): prefix/suffix trimming, first/last index of a character, split/join, decimal rendering.
- `HexCodec` (hex.dfy): bytes and Go's lowercase `%x` rendering, proved injective.
- `Paths` (paths.dfy): `normalizePath`, the key every job and record is filed under.
- `Messages` (messages.dfy): the messages the compile server streams to its browser client.
- `Jobs` (jobs.dfy): one compile connection from the websocket upgrade to the end of the job.
- `Progress` (progress.dfy): the browser-side fold over those messages.
- `Services` (services.dfy): buckets, MIME types, upload items and the play/wasm handlers' messages.
- `PlayGet` (playget.dfy): routing a playground source request and filtering a package directory.
- `WasmDeploy` (wasmdeploy.dfy): the wasm deploy handshake, its hash gate and the deploy record.
- `PlayShare` (playshare.dfy): sharing a playground project under its content hash.
- `Pages` (pages.dfy): host-to-page routing and the play page.
- `Scripts` (scripts.dfy): the dev-mode script server and its source-map cache.
- `MemTester` (memtester.dfy): the write-limited filesystem with its shared byte counter.

The code and its comments disagree in one place. `storeSuccess` says it does
not save the datastore's own error. It does save it: it calls
`sendAndStoreError`, which calls `storeError`, which saves a failure record.
The model follows the code, and `Jobs.SaveFailureTrace` states both records.

## Model

| member | source | states |
|---|---|---|
| `HexCodec.HexInjective` | server/server.go:566-567 | Distinct byte strings have distinct `%x` renderings, so a rendered hash identifies the hash. |
| `HexCodec.Hex` | server/server.go:566-567 | `%x` renders each byte as two lowercase hex digits, so the text is twice as long as the bytes and holds only `0-9a-f`; HexInjective is its partner. |
| `Strings.IndexOf` | server/server.go:682-683 | The first position of a character, or none exactly when the character is absent. |
| `Strings.LastIndexOf` | server/play/page.go:61 | The last position of a character, or none exactly when the character is absent. |
| `Strings.JoinSplit` | server/server.go:692 | Joining the '/'-separated pieces of a path gives back the path, so reading the gist pattern piece by piece loses nothing. |
| `Strings.SplitJoin` | server/server.go:692 | Splitting pieces that contain no '/' after joining them gives back the same pieces. |
| `Paths.GithubPrefixAdded` | server/server.go:681-687 | A first segment with no '.' that matches the GitHub-owner pattern gets `github.com/` prepended to the whole path. |
| `Paths.NotUsernameUnchanged` | server/server.go:682-689 | A first segment that is not a GitHub owner leaves a non-gist path unchanged. |
| `Paths.DottedUnchanged` | server/server.go:682-689 | A dotted first segment leaves the path unchanged unless the gist pattern rewrites it. |
| `Paths.NoSlashUnchanged` | server/server.go:671-690 | A path without '/' is returned as it is. |
| `Paths.GistNeedsGistHost` | server/server.go:674-679 | Only a path whose first segment is `gist.github.com` can be rewritten by the gist pattern. |
| `Paths.GistCollapse` | server/server.go:671-693 | `gist.github.com/<owner>/<hex id>(/<segment>)*` normalises to `gist.github.com/<hex id>`, for every owner and every list of trailing segments. |
| `Paths.NormalizeIdempotent` | server/server.go:671-690 | Normalising a normalised key changes nothing. |
| `Paths.GistId` | server/server.go:692 | A gist URL yields an id only when the path starts with `gist.github.com/`, and the id is a non-empty run of `[a-f0-9]`; GistIdOfParts and GistIdShape state exactly which paths do. |
| `Paths.GistIdShape` | server/server.go:692 | Only a path of the exact shape `gist.github.com/<owner>/<id>(/<segment>)*`, with a non-empty owner and non-empty segments, yields an id, and the id is the one in that shape. |
| `Paths.Normalize` | server/server.go:671-690 | The key is the path itself, the path with `github.com/` prepended, or, for a gist path, `gist.github.com/` followed by a lowercase hex id. |
| `Jobs.JobOf` | server/server.go:369-380 | `/_pg/` URLs are playground jobs and all others are standard jobs; the job's key is a fixed point of normalisation; JobOfRoundTrip is its partner. |
| `Jobs.JobOfRoundTrip` | server/server.go:369-380 | For every normalised key without a trailing slash, `/_ws/<key>` is a standard job and `/_pg/<key>` a playground job under that same key, as the compile page asks. |
| `Jobs.StoreError` | server/server.go:627-645 | The queue-full error is never saved; any other error saves exactly one failure record with the path and the error's text. |
| `Jobs.SendAndStoreError` | server/server.go:615-618 | The client gets exactly one Error with the text. The failure record is saved unless the error is the queue-full sentinel. |
| `Jobs.Manifest` | server/server.go:572-596 | The manifest's main is the variant's hex hash. Entry 0 is the prelude with the variant's prelude hash and Standard set. The compiled packages follow in order with hex hashes, so the length is one more than the package count. |
| `Jobs.ManifestMainIdentifies` | server/server.go:574 | Two manifests with the same main came from variants with the same hash. |
| `Jobs.StoreSuccess` | server/server.go:598-611 | The success record is saved first. A failed save sends exactly one Error with the save's text; a good save sends nothing. |
| `Jobs.DoCompile` | server/server.go:536-569 | A standard job starts with Download Starting, ends with a terminal message, and never sends a Queue report. |
| `Jobs.DoPlaygroundCompile` | server/server.go:516-534 | A PlaygroundCompile instruction sends `Complete` with only the path and saves nothing. Any other instruction sends and saves nothing. A missing instruction sends the timeout Error and saves its failure record. |
| `Jobs.PlaygroundTrace` | server/server.go:484-534 | A granted playground connection sends the queue reports and then the playground job's one Complete, its timeout Error, or nothing; exactly one terminal message unless the instruction was some other one. |
| `Jobs.Socket` | server/server.go:382-513 | A failed upgrade sends nothing and saves one failure record. Queue Done is sent exactly when the upgrade succeeded and the slot was granted. |
| `Jobs.QueueFullTrace` | server/server.go:484-490 | With a full queue, the only message is one Error, Queue Done is never sent, and no record is saved. |
| `Jobs.CancelledTrace` | server/server.go:495-501 | Cancelled before the slot starts: only the queue positions are sent, with no terminal message and no record. |
| `Jobs.SuccessTrace` | server/server.go:536-568 | The full message order of a successful standard job, ending in the one Complete. Complete's short name is the path without `github.com/` and its hashes are the hex hashes. The only record is the success record. |
| `Jobs.CompleteShortName` | server/server.go:563-568 | The short name is the path without a leading `github.com/`, and only that prefix is dropped. |
| `Jobs.FailureTrace` | server/server.go:543-557 | A failing download or compile ends the job with one Error carrying the failure's text. No Complete is sent, and one failure record is saved. |
| `Jobs.SaveFailureTrace` | server/server.go:559-618 | A failing success save sends an Error and then still sends Complete. The success record and a failure record are both handed to the store. |
| `Progress.StepConsistent` | server/server.go:298-311 | Handling one message keeps every phase marked done showing "Done". |
| `Progress.DoneIsFinal` | server/server.go:298-311 | Once a phase is done, no later message changes its row or unmarks it. |
| `Progress.FoldConsistent` | server/server.go:298-311 | Folding any stream from a consistent page keeps it consistent. |
| `Progress.DoneShown` | server/server.go:291-311 | If a stream holds a phase's done report anywhere, the page ends with that phase showing "Done". |
| `Progress.FoldAppend` | server/server.go:291-345 | Handling a stream in two parts is handling it at once. |
| `Progress.ErrorIsFinal` | server/server.go:329-336 | Once the job is complete, the error panel never changes and the job stays complete; a run of late Errors changes nothing but the close handler, so the rows and the Complete payload survive them. |
| `Progress.ErrorShownIsFirstTerminal` | server/server.go:321-336 | The page completes exactly when the stream holds a terminal message. The error panel shows the first terminal message's text when that message is an Error, and shows nothing new when it is a Complete. |
| `Progress.FirstTerminal` | server/server.go:321-336 | The first Complete or Error of a stream is a terminal message of the stream, and there is none exactly when the stream has no terminal message. |
| `Progress.OnCloseInstalled` | server/server.go:338-344 | The close handler exists exactly when at least one message has arrived. |
| `Progress.DisconnectShown` | server/server.go:338-344 | Closing shows "server disconnected" exactly when messages arrived but none ended the job; otherwise closing changes nothing. |
| `Progress.Step` | server/server.go:291-344 | A report for a phase not yet done writes that report's line into the phase's row and marks the phase done exactly for a done report. A Complete is kept as the final payload. Handling any message installs the close handler and completes the job exactly on Complete or Error or if it was complete already. A done phase is never unmarked and its row never changes. A report for a phase already done, and an Error after completion, change nothing but the close handler; only a Complete writes the final payload. |
| `Progress.Fold` | server/server.go:291-344 | Along a stream a complete job stays complete and done phases stay done; FoldAppend, FoldConsistent and ErrorShownIsFirstTerminal are its partners. |
| `Progress.Close` | server/server.go:338-344 | Closing changes at most the error panel, only to "server disconnected", and changes nothing once the job is complete or before any message; DisconnectShown is its partner. |
| `PlayGet.ValidFile` | server/play/get.go:117-124 | A file is valid exactly when its name ends with one of the configured extensions. |
| `PlayGet.Collect` | server/play/get.go:92-113 | The collected names are exactly those of the valid non-test entries, each with its read contents. Otherwise the result is the error of the first kept entry that could not be opened or read. |
| `PlayGet.SourceFiles` | server/play/get.go:86-115 | A listing error is returned. The result has only the key `path`, holding the collected files. It is the empty map, not `{path: {}}`, exactly when nothing was kept. |
| `PlayGet.PlaygroundSource` | server/play/get.go:126-148 | The snippet's URL is fetched. A transport error is returned. A non-200 status gives `error <status>`. A 200 answer whose body cannot be read gives the read error, and one that can gives `{path: {"main.go": body}}`. |
| `PlayGet.StatusErrorNamesStatus` | server/play/get.go:135-137 | The status error's text is `error ` followed by the status, and the status can be read back from it. |
| `PlayGet.GetSource` | server/play/get.go:38-84 | A returned source is the last message, sent as GetComplete. An error leaves no done report and no GetComplete in what was sent. |
| `PlayGet.PlaygroundTrace` | server/play/get.go:40-49 | A `p/` path announces the path. It then sends Done and GetComplete, or nothing more if the fetch fails. |
| `PlayGet.GorootTrace` | server/play/get.go:51-60 | A standard-library path never sends a download message. On success its only message is GetComplete. |
| `PlayGet.DownloadTrace` | server/play/get.go:62-83 | Any other path starts the download, runs the downloader with the LOCAL flag as its insecure flag, and returns its error. Only a successful download and read end with Done and GetComplete. |
| `WasmDeploy.Details` | server/wasm/deploy.go:123-139 | Index files go to the index bucket under the bare hash as HTML. Loader files go to the package bucket as `<hash>.js` with the JavaScript MIME, and wasm files as `<hash>.wasm` with the wasm MIME. Unknown types get no bucket, no name and no MIME. |
| `WasmDeploy.DetailsInjective` | server/wasm/deploy.go:123-139 | For known types, the placement determines the type and the hash. |
| `WasmDeploy.Required` | server/wasm/deploy.go:34-53 | As a multiset, `required` is exactly the queried files whose existence check said absent. A check that errors drops its file. |
| `WasmDeploy.RequiredAreMissing` | server/wasm/deploy.go:34-53 | A file is required exactly when it was queried and found absent. |
| `WasmDeploy.ItemFor` | server/wasm/deploy.go:84-94 | A queued item has Count, Immutable and Send set, the type as its message, and the placement `details` gives for the declared hash. |
| `WasmDeploy.CheckAndQueue` | server/wasm/deploy.go:72-95 | Files are queued in order while their recomputed hash equals the declared one. The first mismatch stops the loop with `hash not consistent for <type>`, and neither that file nor any later one is queued. |
| `WasmDeploy.QueuedNameIdentifiesContent` | server/wasm/deploy.go:76-94 | Two queued known files at the same place have contents with the same digest. |
| `WasmDeploy.DeployQuery` | server/wasm/deploy.go:28-108 | The first message answers with `required`. What is queued is exactly what the hash-checking loop queues for the payload, and nothing when nothing is required or the wait is cancelled. DeployDone is sent exactly when the record save was attempted, and it is then the last message. An error excludes DeployDone. |
| `WasmDeploy.NothingRequiredTrace` | server/wasm/deploy.go:55-59 | With nothing missing, the answer is the only message, and nothing is queued, recorded or returned. |
| `WasmDeploy.CancelledTrace` | server/wasm/deploy.go:61-67 | Cancelled while waiting for the payload: no error, nothing queued, nothing recorded. |
| `WasmDeploy.HashMismatchTrace` | server/wasm/deploy.go:76-83 | A mismatching payload file makes the deploy return the hash error for the first such file. Exactly the files before it are queued, each as its own item, and there is no upload report and no record. |
| `WasmDeploy.SuccessTrace` | server/wasm/deploy.go:97-120 | A successful deploy sends the answer, the upload progress and Storing Done. A ServerError follows exactly when the record save failed, and DeployDone comes last. Each payload file is queued, in order, as the item `details` places under its hash, and recorded with its type and hash. |
| `WasmDeploy.UploadFailureTrace` | server/wasm/deploy.go:97-99 | A failed upload is returned as the error. Storing Done and the record never happen. |
| `PlayShare.CountFilesIsPairs` | server/play/share.go:80-85 | The counted file total equals the number of (package, file) pairs in the source. |
| `PlayShare.CountFiles` | server/play/share.go:80-85 | The total is at least every package's own file count, whatever order the packages are visited in; CountFilesIsPairs is its partner. |
| `PlayShare.ShareItem` | server/play/share.go:54-63 | The shared object holds the encoded pack in the source bucket as JSON, with Count, Immutable and Send set, under `<hash>.json`, from which the hash is read back. |
| `PlayShare.Share` | server/play/share.go:29-96 | The first message is Storing Starting. ShareComplete is the last message exactly when no error is returned. At most one item is queued, holding the encoded pack with version 0 and the request's source and tags. At most one record is saved, carrying the source's file total. |
| `PlayShare.SuccessTrace` | server/play/share.go:31-74 | A successful share sends Storing Starting, the upload progress, Storing Done and ShareComplete, in that order. The object name `<hex>.json`, the record and ShareComplete carry the same hex hash. |
| `PlayShare.UploadFailureTrace` | server/play/share.go:64-66 | A failed upload is returned. Storing Done, the record and ShareComplete never happen. |
| `PlayShare.SaveFailureTrace` | server/play/share.go:70-72 | A failed record save is returned. The last message is Storing Done, and no ShareComplete is sent. |
| `PlayShare.NameIdentifiesContent` | server/play/share.go:56 | Two shares stored under the same object name encoded to bytes with the same digest. |
| `Pages.GetPage` | server/handle-page.go:28-49 | In DEV, hosts ending in 8080, 8081 and 8082 select Play, Jsgo and Frizz. Otherwise only the exact production host names select them. |
| `Pages.DevIgnoresProductionHosts` | server/handle-page.go:29-48 | In DEV the production host names select no page. |
| `Pages.PageHandler` | server/handle-page.go:51-66 | A known page is rendered by its one renderer. An unknown host gets a 500 whose text is `unknown host ` followed by the host. |
| `Pages.Asset` | server/play/page.go:59-64 | Outside LOCAL, the URL is unchanged. In LOCAL, it becomes `/_local/` plus the URL's last segment. |
| `Pages.PlayPageOutcome` | server/play/page.go:22-57 | In DEV, the script is `/_script.js`. Otherwise a lookup error gives 500 with its text, a missing package gives 500 `play package not found`, and a found package gives the pkg.jsgo.io URL. Prod is `!DEV`. |
| `Pages.ScriptNamesMain` | server/play/page.go:40 | The production script URL names the play package's minified main hash. |
| `Scripts.FrontEnd` | server/handle-script.go:34-41 | The play page builds `github.com/dave/play`, the frizz page builds `github.com/dave/frizz`, and any other page builds the empty path. |
| `Scripts.BuildTags` | server/handle-script.go:46-55 | The tags are `jsgo` and `dev`, followed by `local` only in LOCAL. |
| `Scripts.PkgAndMapExclusive` | server/handle-script.go:43-44 | No URL is both a package request and a map request. |
| `Scripts.Handle` | server/handle-script.go:21-108 | Outside DEV the answer is 404 `script only available in dev mode`. An import error gives 500 even for URLs that name neither file. A failed package build gives 500 with its error and leaves the cache. A good build answers the code followed by the source-map trailer and stores that build's map. A map request answers the cached map, or empty bytes. Nothing else changes the cache. |
| `Scripts.NeitherAnswersNothing` | server/handle-script.go:64-107 | A URL naming neither the package nor its map gets an empty answer and leaves the cache unchanged. |
| `Scripts.HandleEntry` | server/handle-script.go:65-88 | A request replaces a package's cached map exactly when it builds that package's script successfully; every other request leaves that entry as it was. |
| `Scripts.LastStored` | server/handle-script.go:85-88 | The last successful build of a path, if any, is found among the calls that stored a map for that path. |
| `Scripts.CacheIsLastBuild` | server/handle-script.go:85-88 | After any run of requests, a path's cached map is the one from its last successful build, or the earlier cached value if no build succeeded (last write wins). |
| `Scripts.MapServesLastBuild` | server/handle-script.go:100-110 | A map request serves the map of the last successful build before it, or the cached map, or empty bytes. |
| `MemTester.NewLimited` | testing/memtester/main.go:83-89 | A new limiter gets a fresh counter at zero and the given limit, and no other counter changes. |
| `MemTester.Chroot` | testing/memtester/main.go:97-103 | A chrooted filesystem shares the counter and the limit. The underlying error passes through. |
| `MemTester.Wrap` | testing/memtester/main.go:105-135 | Create, Open, OpenFile and TempFile wrap the underlying file with the same limiter, or pass its error through. |
| `MemTester.Write` | testing/memtester/main.go:142-147 | The length is added to the shared counter even when the write is refused. The write answers `(0, out of space)` when the total passes the limit; otherwise it gives the underlying file's answer, with a total equal to the limit still allowed. |
| `MemTester.CounterIsCharged` | testing/memtester/main.go:143 | A counter equals its start plus every byte written through any file sharing it, refused writes included. |
| `MemTester.RefusedExactly` | testing/memtester/main.go:143-146 | A write in a run is refused when the bytes charged to its counter so far pass the limit; otherwise it gets the underlying answer. |
| `MemTester.RefusalIsFinal` | testing/memtester/main.go:143-146 | Once a write passes the limit, every later write on the same counter and limit is refused. |

## Left out

- The socket pumps, ping/pong deadlines, the shutdown goroutine, panic recovery, the WaitGroup and the 200 ms close delay (server/server.go:361-481). They are concurrency and timing. The failure records written by the reader goroutine and the shutdown path are also left out.
- The admission queue is not part of this model. `Slot` is an outcome: full, granted after some position reports, or cancelled before the start.
- The getter, the compiler, the uploader (`constor`), `Fileserver.Exists`, `storage.NewClient`, the record store's saves, `gbuild` and the sourcemap writer are oracle parameters.
- SHA-1 is an uninterpreted `digest` function and JSON encoding is an `encode` oracle. `%x` is modelled concretely as lowercase hex.
- Record timestamps (`time.Now()`) are left out because they are clock reads. The client IP header is kept in compile records and left out of share and deploy records.
- `filepath.Join` path cleaning is left out. The directory asked for is the plain concatenation `goroot/src/<path>` or `gopath/src/<path>`.
- HTML templates, the page's DOM effects beyond the state the script keeps, `ServeStatic`, the vecty playground UI, assets/assets.go and the getlist tool are rendering or I/O.
- Browser messages are taken as the JSON the Go types produce. An empty `message` and a zero `position` are falsy in JavaScript and show "Starting". A counts report always shows its counts.
- `\p{L}` in the gist pattern is a parameter `letter`. The model assumes only that it never holds of '/'.
- WasmDeploy.Required: the existence checks run in parallel, so `required` is any interleaving. The model returns the query order, and its contract is stated on the multiset.
- WasmDeploy.DeployQuery: upload progress that queued items may send before a hash mismatch stops the loop is not modelled. The uploader's messages appear only on the paths that wait for it.
- WasmDeploy.CheckAndQueue: copying contents into the hash cannot fail, so its `io.Copy` error path is not modelled.
- Pages.Asset: a URL without '/' makes the source slice at -1 and panic. The model requires a '/' in LOCAL mode instead.
- Pages.PlayPageOutcome: a template execution error (500 with its text) and the goroutine count shown on the page are not modelled.
- WasmDeploy.DeployQuery: the payload is read with an unchecked type assertion (server/wasm/deploy.go:64), so any other first message makes the handler panic. The model's payload is either the files or a cancellation, and that panic is not modelled.
- Scripts.Run: `lastMaps` is a package-level map that concurrent requests read and write without a lock. `Run` takes requests one at a time, so last-write-wins is stated for a serial order, and concurrent map access is not modelled.
- Scripts.Handle: the response headers and an error while copying the body to the response are not modelled.
- MemTester.Write: the counter is a `uint64` in the source and an unbounded `nat` here, so wrap-around after 2^64 bytes is not modelled.
