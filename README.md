# warpdl core in Dafny

A model of four parts of the warpdl download manager:

- The daemon's download handler (`internal/api/download.go`). It takes a decoded request and creates a downloader. It subscribes the requesting connection to the download's events in the connection pool, registers the download with the manager, and starts it. Each of the downloader's seven callbacks becomes messages for the download's subscribers.
- The `download` and `resume` commands of the command line (`dload.go`).
  - Argument checks and the "Download Info" summary.
  - Resolution of a video item and its audio child.
  - Progress-bar completion handlers, the `resumeItem` runs, and the compile gate.
- The `list` table and the `info` command (`cmd/info.go`). This includes `beaut` (centring in a field) and `replic` (a filled array).
- The routing of usage errors, help and version (`warp.go`).

Wherever the code has no effects, it becomes functions over datatypes: argument checks, the callback records, names and rows of the table, and the routing of errors.

Wherever the code works step by step, it becomes methods proved against those functions:
- `replic`'s fill loop is a method over an `array`.
- `beaut` appends a string piece by piece.
- `list` runs a numbering and filtering loop.
- The pool and manager are a `Daemon` class. It has a subscriber map, a map of manager registrations and a log of calls.
- A progress bar is a `Bar` class.
- `resume` has a shared `err` variable that both `resumeItem` runs overwrite.

The libraries the code calls are parameters of the model, each given by the result (success or error) it returns.
- Some calls are also recorded in a log, in the order they are made:
  - in `resume`: `m.ResumeDownload`, `Item.Resume` and `compileVideo` (`Dload.Call`);
  - in the daemon: warplib's `NewDownloader`, the pool's `AddDownload`, `Broadcast`, `WriteError` and `StopDownload`, the manager's `AddDownload`, and the downloader's `Start` and `Stop` (`DownloadApi.Op`).
- Other calls enter only as results and are not logged: `warplib.InitManager`, `warplib.NewDownloader` in `download`, `warpcli.NewClient`, the client's `List`, and the probe of `info`.
- urfave/cli's help screens and `fmt`'s output are effects (`Warp.Effect`).

The two `resumeItem` goroutines race on `err`. The model runs them in both orders, chosen by the `childLast` parameter. It proves that the compile step depends on the LAST write to `err`, not on both runs succeeding. One might expect the compile step to be skipped whenever either stream fails. The code does not do that: when the video's `Resume` fails and the audio's finishes after it with nil, `err` ends nil. Then, whenever `resume` reaches the test of `err` at dload.go:273, `compileVideo` still runs (`Dload.FailureMaskedByLaterWrite`). The `p.Wait()` before that test (dload.go:272) waits on mpb's bars; the model assumes it returns.

Go semantics made explicit:
- `/` truncates toward zero (`Info.GoQuo`).
- `make` panics on a negative length (the precondition of `Info.Replic`).
- `strings.ToLower` and `strings.Contains` are `Text.ToLower` and `Text.Contains`.

## Model

| member | source | states |
|---|---|---|
| Warp.Help | warp.go:91-107 | The version line and the app help (exit status 0) are shown exactly when the argument is empty or "help". Any other argument shows only that command's help. The version route is never taken. |
| Warp.RuntimeError | warp.go:120-122 | The printed line is "warp: ", the step, ": ", the error text and a newline, in that order, with nothing else. |
| Warp.CallbackEffects | warp.go:124-145 | `printErrWithCmdHelp`'s callback shows exactly the help of its own command. `printErrWithHelp`'s callback shows exactly the app help with exit status 1. |
| Warp.PrintErrWithCallback | warp.go:147-162 | A nil error does nothing. An error whose lower-cased text is "flag: help requested" behaves exactly as `help`. Any other error prints the version and nothing else exactly when its lower-cased text contains "-v". |
| Warp.VersionTestIsDashV | warp.go:155-156 | The "-version" test adds nothing: the two tests together hold exactly when the message contains "-v". |
| Warp.UsageErrorCallback | warp.go:164-169 | Something is printed exactly when there is an error. Inside a command the exit-status-1 app help of `printErrWithHelp` is never shown. At the root a command's help is shown only for a help request. |
| Warp.UsageErrorHelpScreen | warp.go:164-169 | A usage error that is neither a help request nor a "-v" message is printed once as "warp: msg". Exactly one help screen follows: the command's help inside a command, the app help at the root. |
| Warp.HelpRequestAnyCase | warp.go:151-153 | For every argument, message and callback: a message that lower-cases to "flag: help requested" behaves exactly as `help` for that argument. |
| Warp.HelpRequestCapitalised | warp.go:151-153 | The text of Go's `flag.ErrHelp`, which urfave/cli passes on, is still a help request when written with capitals ("Flag: Help Requested"). |
| Warp.UnknownDashVFlagShowsVersion | warp.go:155-157 | An unknown "-verbose" flag prints the version instead of the error: every message containing "-v" is swallowed. |
| Info.Replic | cmd/info.go:123-129 | Returns a fresh array of length n with every element v. n must not be negative, since `make` panics on a negative length. |
| Info.GoQuo | cmd/info.go:110 | Go's truncating division. It agrees with Euclidean division for non-negative dividends and gives 0 for small negative ones. |
| Info.CentredShape | cmd/info.go:107-121 | When s fits in n, the result has length n: ⌊(n-\|s\|)/2⌋ spaces, then s, then the same spaces plus one more when n-\|s\| is odd. When s is one character too long, the result is s plus a space. |
| Info.Centred | cmd/info.go:107-121 | When s fits in n, the result has length n, starts with ⌊(n-\|s\|)/2⌋ spaces and holds s right after them. When s is one character too long, the result is s plus a space. |
| Info.Beaut | cmd/info.go:107-121 | The string `beaut` builds piece by piece is that centred string, of length n whenever s fits. |
| Info.ListRequest | cmd/info.go:63-66 | `--all` asks for completed and pending downloads. Otherwise both flags pass through unchanged. |
| Info.VisibleIsFilter | cmd/info.go:83-86 | An item is listed exactly when it is in the list and shown: hidden items and children appear only with showHidden. There are never more rows than items. Nothing is listed exactly when every item is filtered out. |
| Info.NormalName | cmd/info.go:88-95 | Every name is 23 characters wide. A name of exactly 23 is unchanged. A longer name becomes its first 20 characters and "...". A shorter name is centred. |
| Info.PercentText | cmd/info.go:96 | The status cell text is at most 5 characters for any percentage up to 9999. |
| Info.RowsNumbered | cmd/info.go:82-98 | Row k+1 of the table follows the first k rows, and it carries the number k+1 and the (k+1)-th listed item. |
| Info.ListStep | cmd/info.go:84-97 | One pass of the `list` loop over item k. Afterwards the row counter is the number of items shown among the first k+1, and the text so far is exactly their numbered rows. |
| Info.FormatRow | cmd/info.go:88-97 | The row assembled for number i and an item is that item's table row. |
| Info.ListTable | cmd/info.go:75-103 | With nothing listed the result is "warp: no downloads found". Otherwise it is the header, one row per shown item numbered 1, 2, … in list order, and the footer. |
| Info.List | cmd/info.go:54-105 | "help" shows the command's help. A failed client or list request is reported with the step ("new_client" or "get_list") and the error. The list request is the one `Info.ListRequest` builds from the flags. With nothing shown the fallback line is printed. Otherwise the printed text is the header, the numbered rows of the shown items in order, and the footer. |
| Info.InfoHeaders | cmd/info.go:24-29 | Exactly one User-Agent header is sent when a user agent was given, and none otherwise. |
| Info.InfoFileName | cmd/info.go:42-45 | The printed name is never empty: the downloader's file name, or "not-defined" when it has none. |
| Info.Info | cmd/info.go:13-52 | An empty URL is a usage error and "help" shows the command help. Otherwise the downloader is probed with the headers of `Info.InfoHeaders`. The waiting line comes first, followed by the "new_downloader" error or the file's name and size. |
| Dload.CheckArg | dload.go:15-27 | `download` proceeds exactly when its argument is neither empty nor "help". "help" shows the command's help. |
| Dload.EmptyArgAtRoot | dload.go:17-20 | An empty argument at the root shows the app help. |
| Dload.EmptyArgInCommand | dload.go:120-132 | An empty argument under a command prints "warp: no hash provided" (or "no url provided") followed by that command's help, and nothing else. |
| Dload.Download | dload.go:15-103 | After the start line, `download` reports a failed manager, a failed downloader or an empty file name as an "info" error. Otherwise it prints the summary with the downloader's name, size and directory. |
| Dload.InfoText | dload.go:87-101 | The summary starts with the "Download Info" heading and the "Name" label, holds the file name right after them, and ends in a newline. |
| Dload.InfoLayout | dload.go:87-101 | Line by line, after the name come the "Size" label and the size, the "Save Location" label, the location and "/", the "Max Connections" label and the decimal connection limit. Then comes a newline followed by exactly the optional "Max Segments" line. |
| Dload.MaxSegmentsLine | dload.go:87-101 | The summary contains the "Max Segments" line exactly when maxParts is not 0, appended after the plain summary. |
| Dload.ResolvePair | dload.go:148-211 | Resolution succeeds exactly when the primary resolves and, if it names a child, the child resolves too. The child is present exactly when the primary names one. A failure carries the step: "resume" for the primary, "secondary-resume" for the child. |
| Dload.ResolveCalls | dload.go:148-182 | `m.ResumeDownload` runs once for the hash, and a second time exactly when the primary resolved and names a child, with the child's hash. |
| Dload.ChildResolvedOnlyWhenNamed | dload.go:181-182 | Of all the calls `resume` makes, `ResumeDownload` receives only the hash itself or the named child hash. |
| Dload.ResolutionFailureStops | dload.go:173-211 | When resolution fails, nothing but the resolution calls is made: no transfer and no compile. |
| Dload.ReportedSize | dload.go:213-216 | The size in the summary is the sum of the total sizes of the items `resume` runs, in either order. |
| Dload.ShownLocation | dload.go:227-233 | The shown location is the absolute location when set, the download location otherwise. It is empty only when both are empty. |
| Dload.Summary | dload.go:213-239 | The summary is the "Download Info" text (laid out as `Dload.InfoLayout` states) for the primary's name, the primary size plus the child's size, and the shown location. |
| Dload.CompleteIdempotent | dload.go:159-170 | Running a completion handler twice leaves the bar as running it once. |
| Dload.CompleteFills | dload.go:193-204 | A completion handler leaves a bar completed at its total. |
| Dload.OnComplete | dload.go:159-170 | The handler leaves an already completed bar alone, and otherwise sets it to the item's total size. |
| Dload.OnProgress | dload.go:153-158 | A progress callback advances its bar by the bytes read. |
| Dload.ResumeItem | dload.go:243-251 | An incomplete item is resumed: its run makes exactly one `Item.Resume` call and overwrites `err` with the result, nil included. A complete item makes no call, sets both bars to its total and leaves `err` alone. |
| Dload.Order | dload.go:254-266 | Without a child only the primary runs. With a child both run, in either order. |
| Dload.LastWriteWins | dload.go:243-251 | One more run leaves `err` as that run's result when it resumes, and as before otherwise. |
| Dload.ResumeAll | dload.go:243-267 | Running the items in the chosen order leaves `err` as the last write. The calls the runs make, joined in order, are one `Resume` call per incomplete item. |
| Dload.LastWriterDecides | dload.go:243-273 | When both items are resumed, the final `err` is the result of whichever run wrote last. |
| Dload.NoFailureNoError | dload.go:243-273 | When no resumed item fails, the final `err` is nil in either order. |
| Dload.ResumedIffIncomplete | dload.go:243-251 | With the pair resolved, an item is resumed exactly when its downloaded size is below its total. |
| Dload.CompileGate | dload.go:273-287 | `compileVideo` runs at most once, as the last call, and exactly when the pair resolved with a child and the final `err` is nil. It receives both save paths, both names and the primary's absolute location. |
| Dload.FailureMaskedByLaterWrite | dload.go:243-287 | When the video's `Resume` fails and the audio's succeeds after it, `compileVideo` still runs. The same results in the other order skip it. |
| Dload.ResolveStep | dload.go:148-211 | The resolution calls and their outcome are the ones described by `ResolveCalls` and `ResolvePair`. |
| Dload.ResumeOpened | dload.go:148-287 | Once the manager is open, the printed lines and the calls of `resume` are those of the resolution, the summary, the runs and the gate described above. |
| Dload.Resume | dload.go:120-289 | The full run of `resume`. The argument check covers "help" and the empty hash. The start line follows, then the manager error, the resolution errors, the summary, the final "resume" error, and the calls. |
| DownloadApi.Downloading | internal/api/download.go:35-85 | Every progress record carries the download's own hash as its id. |
| DownloadApi.DownloadingRoundTrip | internal/api/download.go:35-85 | Each callback kind has its own action name, and the record keeps every argument, so the record determines the callback. |
| DownloadApi.DownloadingFields | internal/api/download.go:35-85 | Progress and complete records carry the value and the hash. compile_start carries only the hash. download_stopped carries neither. |
| DownloadApi.EventOps | internal/api/download.go:28-85 | A callback makes four calls when it is the error callback and one otherwise. The first call is a broadcast to the download's subscribers. The subscription ends exactly for the error callback. Every call concerns this download only, and none creates, subscribes, registers or starts anything. |
| DownloadApi.OneBroadcastPerEvent | internal/api/download.go:35-85 | A non-error callback makes exactly one call: an UPDATE_DOWNLOADING broadcast to the download's subscribers. |
| DownloadApi.ErrorSequence | internal/api/download.go:28-34 | The error callback broadcasts the error, writes it as critical, ends the subscription and stops the downloader, in that order. All four calls concern only this download. |
| DownloadApi.HandlerOps | internal/api/download.go:11-110 | A body that does not decode makes no call. Otherwise the first call creates the downloader from the request's URL and options. A failed creation stops there. A refused registration stops after 3 calls, and in all other cases there are 4. Every later call concerns the new download's hash, and none broadcasts or ends a subscription. |
| DownloadApi.HandlerReply | internal/api/download.go:11-110 | Every path answers with UPDATE_DOWNLOAD. There is a response exactly when there is no error. A decode error, a creation error or the manager's refusal (internal/api/download.go:98-100) is the reply's error, with no response. A successful reply describes the downloader. |
| DownloadApi.DecodeFailureTouchesNothing | internal/api/download.go:12-15 | An undecodable body is answered with its error, and no call is made. |
| DownloadApi.CreateFailureNoSubscription | internal/api/download.go:20-90 | When the downloader cannot be created there is no subscription, no registration and no start, and its error is the reply. |
| DownloadApi.SubscribeBeforeRegister | internal/api/download.go:91-97 | The connection is subscribed under the download's hash before the manager registers it. The manager receives the request's child hash and hidden and children flags, with the downloader's directory as the absolute location. |
| DownloadApi.StartOnlyAfterRegistration | internal/api/download.go:98-102 | The download is started exactly when it was created and the manager accepted it. The start is then the last call. |
| DownloadApi.ResponseFromDownloader | internal/api/download.go:103-109 | A successful reply carries the downloader's hash as the download id, and its length, file name, save path and directory. |
| DownloadApi.Daemon.AddDownload | internal/api/download.go:91 | The connection joins the subscribers of the hash, and the call is logged. |
| DownloadApi.Daemon.StopDownload | internal/api/download.go:32 | The hash loses all its subscribers, and the call is logged. |
| DownloadApi.Daemon.ManagerAdd | internal/api/download.go:92-97 | The manager holds the registration only when it accepted it. |
| DownloadApi.Daemon.OnEvent | internal/api/download.go:28-85 | A callback appends its calls to the log. It removes the download's subscribers only for the error callback. |
| DownloadApi.Daemon.DownloadHandler | internal/api/download.go:11-110 | The handler's reply, its calls, and the new subscriber and manager state are those given by `HandlerReply` and `HandlerOps`. |
| DownloadApi.SubscriptionSurvivesManagerFailure | internal/api/download.go:91-100 | From any daemon state, when the manager refuses the download the connection stays subscribed to it and no existing subscription is lost. Nothing new is registered, none of the three new calls starts the download, and the reply carries the manager's error. |
| DownloadApi.ErrorEndsSubscription | internal/api/download.go:28-34 | After the error callback the download has no subscribers, and every other download keeps its own. |

## Left out

- Terminal output, the progress-bar rendering of mpb (`initBars`, `Abort`, `p.Wait`), timing ("Time Taken") and `fmt.Println`'s trailing newline on the table. Output is modelled as a list of effects.
- Goroutines, the `sync.WaitGroup` and `go d.Start()`. The join is "both runs done", and the two write orders of `err` are the `childLast` parameter. Scheduling and the data race itself are not modelled.
- Dload.Download: the branch for videos with a separate audio stream (`processVideo`/`downloadVideo`) and `d.Start()` are outside the model, because they call code that is not part of this model.
- Dload.Download: the call `m.AddDownload(d, nil)` (dload.go:80) and its ignored error are not modelled. It registers the download with the manager before the empty-file-name check (dload.go:82-86), so an item is registered even when that check then fails.
- Dload.Bar: the mpb bar is reduced to current, total and completed. It is assumed to complete, clamped to its total, when the current value reaches the total, and to ignore a negative `SetCurrent` and a non-positive `IncrBy`. mpb is not part of this model.
- Dload.ResumeItem: while `Item.Resume` runs, warplib drives the bars through the progress and completion handlers (dload.go:153-170). The model leaves both bars unchanged in that branch. The handlers are modelled on their own (`Dload.OnProgress`, `Dload.OnComplete`), but they are not tied to the transfer, because warplib's transfer is not part of this model.
- Warp.Help: an error returned by `cli.ShowCommandHelp` (an unknown command name) is not modelled. The help screens, the flag tables and `main` are urfave/cli configuration.
- The version text of `version(ctx)` (runtime GOOS and GOARCH) is the single effect `PrintVersion`.
- Text.ToLower: only ASCII letters are lowered. Go's Unicode case mapping is not modelled.
- Info.NormalName: names are sequences of characters, while Go counts and slices bytes, so a 20-byte cut inside a multi-byte character is not modelled.
- Info.ListTable: percentages are natural numbers up to 9999, and the table requires every shown item to have one. `GetPercentage` is warplib's, and a negative or wider value is not modelled.
- The pool's delivery (`server.Pool`, `SyncConn`), its locking and fan-out are not part of this model. Broadcasts and error writes are logged calls. The model assumes that subscribing adds the connection to the hash's set and that stopping removes the hash with all its subscribers; `server.Pool`'s code is not part of this model.
- The content of `common.UPDATE_DOWNLOAD` and the other command names are not part of this model. They are the constructors of `DownloadApi.Command`.
- What `warplib.NewDownloader` does with the request headers of `info` is not part of this model: the probe is a parameter that receives them.
- DownloadApi.Daemon.ManagerAdd: the model assumes that warplib's `Manager.AddDownload` registers nothing when it reports an error. The "nothing new is registered" of `DownloadApi.SubscriptionSurvivesManagerFailure` and the `registered` state of `DownloadApi.Daemon.DownloadHandler` rest on that. warplib's manager is not part of this model.
- Info.Info: the waiting line hard-codes "warp" for `ctx.App.HelpName` (cmd/info.go:23). Package cmd's App definition is not part of this model, and "warp" is the HelpName of package main's App.
- Info.Info: `InfoUsageError` stands for the usage error printed by package cmd's `printErrWithCmdHelp` (cmd/info.go:16-19). That function is not part of this model, so the record keeps only the message.
- The `printRuntimeErr` of package cmd (which takes the command and the step) is not part of this model. Its errors are the records `ListRuntimeError` and `InfoRuntimeError`, carrying the step and the error.
