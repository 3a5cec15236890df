# OMR-ANALYZER request pipeline in Dafny

This project models the request lifecycle of the OMR-ANALYZER web service (`api.py`). A `POST /process` request carries a JSON job: a template URL, a config URL, a marker-image URL and a list of sheet images, each with a roll and a URL. `process_omr` first provisions a timestamped workspace `inputs/request_<ts>` with an `images` directory. It then downloads the assets in a fixed order and stops at the first failure. It makes `outputs/request_<ts>`, calls the recognition engine on the images directory, and returns a result dictionary. Depending on the exit path it removes the workspace or keeps it. The handler maps the result to an HTTP status.

The model consists of these modules:

- `Optional` (`optional.dfy`): a JSON key that may be absent.
- `UrlRewrite` (`url_rewrite.dfy`): the Dropbox share-link rewrite in `download_file`, with Python's `in` and non-overlapping `str.replace`.
- `FileSystem` (`filesystem.dfy`): the filesystem as a set of directories and a map from file paths to bytes. It covers `Path.mkdir` with and without `exist_ok`, the text of `FileExistsError`, `FileNotFoundError` and `NotADirectoryError`, and `shutil.rmtree`.
- `Fetch` (`fetch.dfy`): one `download_file` as a pure function of the reply the GET gets.
- `Pipeline` (`pipeline.dfy`): `process_omr` as a pure function. Its result records the outcome, the filesystem afterwards, the outgoing calls in order (GETs and the engine call) and the exit path taken. The downloads form a *plan* of steps. A step is a download or the `KeyError` of a missing key. The fetch phase (`RunSteps`) runs the plan until the first step that does not succeed.
- `Api` (`api.dfy`): the `/process` handler as a function (`Handle`). It also holds a class `Host`, whose methods change the filesystem in place, step by step, as `download_file`, `process_omr` and the handler do. This includes the chunk loop and the image loop. Each method is proved to leave exactly the state, calls and result that the functions give.

Everything outside the service is a parameter:

- the network is `net: string -> Response`, the reply a GET of a URL gets;
- the engine (config load, `Template`, `process_dir`) is `engine: EngineCall -> EngineResult`: the responses, or an exception message;
- whether the success-path `shutil.rmtree` raises is `removalFails`;
- the timestamp is `ts`;
- the directory of `api.py` is `root`.

The outer `except` of `process_omr` is modelled twice:
- `Pipeline.ProcessOmr` follows the evidently intended behaviour: report the error and remove the request directory. The rest of the model uses this one, including `Api.Handle` and the `Host` class. Rows marked "(corrected outer except)" describe it; on the outer `except` the program as written does what `ProcessOmrAsWritten` says.
- `Pipeline.ProcessOmrAsWritten` follows the code as written: the outer `except` raises `UnboundLocalError`, removes nothing, and `/process` answers 500.

`Pipeline.AsWrittenPartsOnlyInOuterExcept` proves, for all inputs, that the two agree except on that path (see "## Findings").

## Model

| member | source | states |
|---|---|---|
| UrlRewrite.Replace | api.py:34 | Replacing a pattern by one of equal length keeps the length of the string. |
| UrlRewrite.ReplacePreviewAt | api.py:34 | Replacing `dl=0` by `dl=1` changes exactly the last character of every occurrence of `dl=0` in the input, to `1`. Every other character is kept, and so is the length. |
| UrlRewrite.Rewrite | api.py:33-34 | The URL actually requested has the same length as the one given, and is the same URL unless it contains both `dropbox.com` and `dl=0`. |
| UrlRewrite.RewriteAt | api.py:33-34 | Pointwise meaning of the rewrite: a character changes, to `1`, exactly when the URL contains both `dropbox.com` and `dl=0` and the character ends a `dl=0`. The length is kept. |
| UrlRewrite.RewriteChangesExactlyShareLinks | api.py:33-34 | The URL requested differs from the URL given if and only if the URL contains both `dropbox.com` and `dl=0`. |
| UrlRewrite.RewriteOnlyZeros | api.py:33-34 | The rewrite only ever turns a `0` into a `1`. |
| UrlRewrite.NoPreviewAfterRewrite | api.py:33-34 | After rewriting a share link, no `dl=0` starts at any position. |
| UrlRewrite.RewriteClearsPreview | api.py:33-34 | A Dropbox URL never carries `dl=0` after the rewrite. |
| UrlRewrite.RewriteIdempotent | api.py:33-34 | Rewriting an already rewritten URL changes nothing. |
| UrlRewrite.RewriteKeepsHost | api.py:33-34 | The `dropbox.com` marker survives the rewrite. |
| FileSystem.Mkdir | api.py:63 | `mkdir` succeeds exactly when the path exists as a directory and `exist_ok` is set, or the path is new and its parent exists. On success it adds exactly that directory. An existing path fails with `FileExistsError`. A missing parent fails with `NotADirectoryError` when a proper ancestor is a regular file, and with `FileNotFoundError` otherwise. |
| FileSystem.RemoveTree | api.py:150 | After `rmtree(p)`, nothing at or below `p` remains. Every other directory and file remains, with the same contents. |
| FileSystem.Join | api.py:101-102 | `p / name` of a relative name lies below `p`. |
| FileSystem.Components | api.py:101-102 | (definition) pathlib's split of a relative name: cut at every `/`, empty and `.` parts dropped. `PlainComponent` and `SlashSplits` state its properties. |
| FileSystem.Render | api.py:124-125 | (definition) `str(path)` of an absolute path: `/` before each component. |
| FileSystem.PlainComponent | api.py:101-102 | pathlib turns a name without `/` (other than `""` and `.`) into a single component. |
| FileSystem.SlashSplits | api.py:101-102 | pathlib turns a name containing `/`, whose first and last characters are neither `/` nor `.`, into at least two components. |
| FileSystem.RemoveTreeKeepsWellFormed | api.py:174 | Removing any tree other than `/` keeps the filesystem well formed. |
| FileSystem.NothingBelowMissingDir | api.py:68 | In a well-formed filesystem, no directory lies below a directory that does not exist. This is why a fresh request directory is empty. |
| Fetch.IsHttpError | api.py:38 | (definition) `raise_for_status` rejects exactly the statuses 400 to 599. `Download`'s contract states what follows from it. |
| Fetch.Writable | api.py:40 | (definition) `open(target, 'wb')` succeeds exactly when the parent directory exists and the target is not a directory. `Download`'s contract states what follows from it. |
| Fetch.StoreOfDownload | api.py:37-51 | One download creates no directory, and no file other than its target appears or changes. A call that returns True leaves the target holding exactly the reply body, whatever was there before. A well-formed filesystem stays well formed. |
| Fetch.Store | api.py:40-42 | (definition) The file write of `download_file`: the target holds the written body when the file was opened, and nothing changes otherwise. `StoreOfDownload` states its properties. |
| Fetch.Download | api.py:28-51 | `download_file` returns True exactly when the reply passes `raise_for_status`, the target can be opened and the stream does not break. Otherwise it returns False and raises nothing. A file is written exactly when the status check passes and the target can be opened, and it holds the chunks in order. |
| Pipeline.PlainSheetPath | api.py:101-102 | A roll without `/` names the single file `images/sheet_<roll>.jpg`. |
| Pipeline.SlashedSheetPath | api.py:101-102 | A roll with `/` names a file at least two levels below `images`. |
| Pipeline.ImageSteps | api.py:100-106 | Without `images` the loop raises `KeyError('images')` before any GET. Otherwise there is one step per image, in order, with `roll` read before `url`. |
| Pipeline.KeyErrorText | api.py:171 | (definition) `str(KeyError(key))`: the key in single quotes. |
| Pipeline.Plan | api.py:80-106 | (definition) The downloads in source order: template, config and marker, then the sheets. Each key is read just before its download. `PlanTargetsInWorkspace`, `FirstFailureStops` and the lemmas below state its properties. |
| Pipeline.StepRun | api.py:82-106 | (definition) One step: the `KeyError` of a missing key, or one `download_file` of the rewritten URL, checked for False. `SucceedsIffDelivered` states when it succeeds. |
| Pipeline.RunSteps | api.py:82-106 | (definition) The downloads run in plan order until the first step that does not succeed. `RunStepsTrace`, `RunStepsFailure`, `RunStepsSaved` and `FirstFailureStops` state its properties. |
| Pipeline.FetchesAllIffAllSucceed | api.py:82-106 | The downloads all succeed if and only if every step of the plan is a download that returns True. |
| Pipeline.ThenAssociative | api.py:82-106 | Sequencing fetch phases is associative. |
| Pipeline.RunStepsTrace | api.py:82-106 | The GETs issued are a prefix of the plan's GETs in plan order, and all of them when every step succeeds. |
| Pipeline.RunStepsFailure | api.py:82-106 | A failed fetch phase reports the failure message of one of the planned downloads. |
| Pipeline.RunStepsSaved | api.py:82-106 | The fetch phase only writes planned targets, each into an existing directory. |
| Pipeline.FirstFailureStops | api.py:82-106 | The first step that does not succeed decides the stop: its own failure message, or the `KeyError` of its key. The GETs issued are exactly those of the steps up to and including it. |
| Pipeline.RunStepsWritesAll | api.py:82-111 | When the downloads all succeed, every planned step was a download whose reply arrived whole, and every planned target was written. |
| Pipeline.RunStepsSavesLast | api.py:82-111 | When the downloads all succeed, each planned target holds exactly the body of the last download into it. |
| Pipeline.OuterAbort | api.py:170-175 | (corrected outer except) The intended outer `except` returns an error under the outer prefix and leaves nothing at or below the request directory. |
| Pipeline.EngineCallFor | api.py:119-138 | (definition) The engine gets the images directory as root and current directory, the template and config paths, and the arguments: the images directory, the output directory, `auto_align` and `set_layout` defaulting to False, and `debug` False. `InnerScope` states that it is called exactly once with this call. |
| Pipeline.Conclude | api.py:82-116 | (corrected outer except) (definition) The end of the downloads: a failed download returns its message, a missing key enters the outer `except`, and otherwise the output directory is made and the inner `try` runs. `FetchPhaseEnds` and `WorkspaceByExit` state its properties. |
| Pipeline.InnerScope | api.py:118-168 | The engine is called exactly once. An engine error keeps the filesystem. Success removes the whole request tree unless that removal fails, and keeps the output directory. |
| Pipeline.FetchPhase | api.py:80-177 | (corrected outer except) After the images directory exists, nothing escapes: <br>• a failed download keeps the directories and returns one of the planned messages; <br>• outer failures carry the outer prefix; <br>• the engine paths follow all of the plan's GETs and keep the output directory; <br>• the other paths issue a prefix of the plan's GETs. As written, the outer `except` raises instead (`ProcessOmrAsWritten`). |
| Pipeline.OuterScope | api.py:70-177 | (corrected outer except) The same facts for the outer `try` from the images `mkdir` on. A failed download also keeps the request and images directories. |
| Pipeline.ProcessOmr | api.py:53-177 | (corrected outer except) An exception escapes exactly on the two `mkdir` calls before the outer `try`. Those calls issue no request and write no file. A request directory that already exists raises `FileExistsError` and changes nothing. |
| Pipeline.ReachesOuterScope | api.py:60-70 | Past the two provisioning `mkdir` calls, `process_omr` is the outer scope on a filesystem that holds the request directory. |
| Pipeline.FetchPhaseEnds | api.py:113-175 | (corrected outer except) From the fetch phase on, the outer `except` and a successful cleanup leave nothing of the request. An engine error returns the inner prefix plus the engine's message. Success returns the relative request directory and the engine's responses. |
| Pipeline.OuterScopeEnds | api.py:70-175 | (corrected outer except) The same for the whole outer scope. |
| Pipeline.WorkspaceByExit | api.py:53-177 | (corrected outer except) The request directory on each exit path: <br>• a failed download keeps it, with its images directory; <br>• an outer failure leaves nothing below it; <br>• an engine error keeps it; <br>• success removes it if and only if the removal works; <br>• both engine paths keep the output directory. |
| Pipeline.ResultByExit | api.py:53-177 | (corrected outer except) The result on each exit path: <br>• a failed download returns one of the planned messages; <br>• outer failures carry "Processing failed: "; <br>• an engine error returns "Error during OMR processing: " plus its message; <br>• success returns `inputs/request_<ts>` and the engine's responses. |
| Pipeline.TraceByExit | api.py:53-177 | The engine paths issue every planned GET in order and then call the engine once. Every other path issues only a prefix of the planned GETs and never calls the engine. |
| Pipeline.EscapesIffNotProvisioned | api.py:60-68 | (corrected outer except) An exception escapes `process_omr` if and only if `inputs` cannot be made or the request directory already exists. |
| Pipeline.EntersFetchPhase | api.py:60-78 | On a provisioned well-formed filesystem all three `mkdir` calls succeed, and the downloads start on the fresh workspace. |
| Pipeline.PlanTargetsInWorkspace | api.py:74-101 | Every planned download writes below the request directory. |
| Pipeline.WorkspaceTargetsWritable | api.py:74-102 | When the rolls up to that step hold no `/`, every planned target can be opened inside the fresh workspace. |
| Pipeline.SucceedsIffDelivered | api.py:82-106 | When the rolls up to that step hold no `/`, a step in the fresh workspace succeeds if and only if it is a download whose reply passes the status check and arrives whole. |
| Pipeline.SlashedRollFails | api.py:100-106 | A sheet whose roll holds `/` never downloads in the fresh workspace, whatever the reply: `open` finds no parent directory. Its failure message names the roll. |
| Pipeline.StopsAtFirstUndelivered | api.py:82-106 | In the fresh workspace, the downloads stop at the first step whose reply does not arrive whole or whose key is missing, after the GETs up to that step. |
| Pipeline.FirstUndeliveredFails | api.py:82-106 | The first download whose reply does not arrive returns its own message. No later GET is issued, the engine is not called and the request directory stays. |
| Pipeline.MissingKeyAborts | api.py:82-106 | (corrected outer except) A missing key after earlier downloads arrived returns "Processing failed: 'key'" and removes the request directory. |
| Pipeline.ImageFailureNamesRoll | api.py:100-106 | A sheet that does not arrive returns "Failed to download image for roll <roll>". It comes after exactly the GETs of the template, config, marker and earlier sheets, its own GET being the last. |
| Pipeline.SheetStep | api.py:101-103 | A sheet is downloaded into `images/sheet_<roll>.jpg`, and its failure message names the roll. |
| Pipeline.AllDeliveredFetchesAll | api.py:82-111 | When every planned reply arrives whole, the downloads all succeed. |
| Pipeline.SavedInWorkspace | api.py:74-106 | The downloads write nothing outside the request directory. |
| Pipeline.AllDeliveredReachesEngine | api.py:82-138 | When every reply arrives and the output directory can be made, the engine is called exactly once, after all the GETs. The job finishes if and only if the engine returns responses. |
| Pipeline.FetchPhaseKeepsWellFormed | api.py:78-175 | Every path from the images directory on keeps the filesystem well formed. |
| Pipeline.ProcessKeepsWellFormed | api.py:53-177 | `process_omr` leaves a well-formed filesystem on every path. |
| Pipeline.AllDeliveredConcludes | api.py:82-111 | When every planned reply arrives whole and every roll is plain, all GETs are issued in order, and `process_omr` goes on to the output directory. |
| Pipeline.OuterExceptAsWritten | api.py:170-175 | (definition) The outer `except` as written: `shutil.rmtree` raises `UnboundLocalError`, the filesystem and calls stay as they were. |
| Pipeline.ConcludeAsWritten | api.py:82-175 | (definition) `Conclude` with the outer `except` as written. `ConcludeAsWrittenParts` relates the two. |
| Pipeline.ProcessOmrAsWritten | api.py:53-177 | `process_omr` as written: its outer `except` raises `UnboundLocalError` and removes nothing. |
| Pipeline.ConcludeAsWrittenParts | api.py:82-175 | The end of the outer scope, as written and as intended, agree except in the outer `except`. There the code as written raises and keeps what the intended code removes. |
| Pipeline.AsWrittenPartsOnlyInOuterExcept | api.py:53-177 | For every input, `process_omr` as written has the same exit path and calls as the intended one. It has the same result and filesystem on every path except the outer `except`. There it raises `UnboundLocalError` and keeps the request directory; the intended filesystem is its own with the request tree removed. |
| Pipeline.MissingTemplateAborts | api.py:82-85 | A body without `template_url` enters the outer `except` on the fresh workspace, before any GET. |
| Pipeline.MissingTemplateShowsOuterExcept | api.py:149-174 | A body without `template_url` reaches the outer `except` with the fresh workspace. As written, that `except` raises and leaves the request directory. The intended one returns "Processing failed: 'template_url'" and removes it. |
| Pipeline.MissingOutputsShowsOuterExcept | api.py:113-174 | On an install without `outputs`, a job whose every download arrives reaches the outer `except` at the output `mkdir`. As written, the job raises after all its GETs and keeps every downloaded input. The intended job returns the `mkdir` error and removes them. |
| Pipeline.ConcludeKeepsOutside | api.py:82-175 | The end of the outer scope, as intended and as written, keeps every file and directory outside the request directory. Only the output directory can appear there. |
| Pipeline.OuterScopeKeepsOutside | api.py:70-175 | (corrected outer except) The same for the whole outer scope. |
| Pipeline.ProcessKeepsOutside | api.py:53-177 | `process_omr`, as intended and as written, changes nothing outside the request directory. Every file there keeps its presence and contents, and every directory stays. Only `inputs` and `outputs/request_<ts>` can appear. |
| Pipeline.EngineFindsDownloads | api.py:53-138 | On the engine paths, every planned step was a download whose reply arrived whole. After an engine error, or a cleanup that fails, each planned target holds exactly the body of the last download into it. |
| Api.Handle | api.py:182-197 | (corrected outer except) `/process` reply rules: <br>• a falsy body gets 400 "No data provided" and nothing happens; <br>• an unreadable body or an escaped exception gets 500 "Internal server error"; <br>• any dictionary `process_omr` returns gets 200, error dictionaries included. As written, a job that reaches the outer `except` gets 500 (`ReplyAsWritten`). |
| Api.Respond | api.py:193-197 | A returned dictionary is sent with 200. An escaped exception is answered with 500 and "Internal server error". |
| Api.StatusOfJob | api.py:60-68 | (corrected outer except) A job gets 200 if and only if the filesystem provisions its workspace. A request directory that already exists gives 500 and changes nothing. |
| Api.FailedDownloadIsOk | api.py:82-106 | A failed download is answered with 200 and the download's own message. |
| Api.ReplyAsWritten | api.py:149-197 | For every job body, the reply as written equals the intended reply, except that a job reaching the outer `except` gets 500 instead of 200 and keeps its request directory. A job gets 200 as written exactly when it is provisioned and does not reach the outer `except`. |
| Api.MissingTemplateReply | api.py:170-197 | A body without `template_url`: the intended code answers 200 with "Processing failed: 'template_url'" and removes the request directory. As written, the handler answers 500 and the directory stays. |
| Api.Host.constructor | api.py:60-61 | A host starts on the given root and filesystem with no calls made. |
| Api.Host.MakeDir | api.py:63 | The in-place `mkdir` succeeds, changes the state and reports errors (`FileExistsError`, `NotADirectoryError`, `FileNotFoundError`) exactly as `Mkdir` says. |
| Api.Host.RemoveTree | api.py:174 | The in-place `rmtree` leaves exactly the state `RemoveTree` gives. |
| Api.Host.DownloadFile | api.py:28-51 | The chunk loop writes the file and issues one GET of the rewritten URL. The return value and the new filesystem are exactly those `Download` and `Store` give. |
| Api.Host.RunStep | api.py:82-106 | One download checked for False, or the `KeyError` of a missing key, changes the state as `StepRun` says. |
| Api.Host.FetchStep | api.py:82-106 | One step after a phase that fetched everything extends that phase by the step. |
| Api.Host.TakeStep | api.py:100-106 | Taking the next remaining step keeps the phase headed for the same overall result. When the step fails, the phase has reached that result. |
| Api.Host.Abort | api.py:170-175 | (corrected outer except) The in-place outer `except` leaves exactly the state and result `OuterAbort` gives. |
| Api.Host.Engine | api.py:118-168 | The in-place inner `try` leaves exactly the state, calls and result `InnerScope` gives. |
| Api.Host.Settle | api.py:82-116 | (corrected outer except) The end of the downloads returns the failure, raises into the outer `except`, or makes the output directory and enters the inner `try`, as `Conclude` says. |
| Api.Host.Advance | api.py:82-95 | (corrected outer except) One checked download of template, config or marker either lets the sequence go on or ends the outer `try` as `Conclude` says. |
| Api.Host.Fetches | api.py:80-177 | (corrected outer except) The in-place downloads and the rest of the outer `try` leave exactly the state, calls and result of `Conclude` applied to `RunSteps` of the plan. |
| Api.Host.FetchSheets | api.py:100-111 | (corrected outer except) A missing `images` key raises into the outer `except`. Otherwise the image loop runs and the outer `try` ends as `Conclude` says. |
| Api.Host.FetchImages | api.py:100-111 | The image loop stops at the first sheet that fails and reaches exactly the phase `RunSteps` gives. |
| Api.Host.ProcessOmr | api.py:53-177 | (corrected outer except) The in-place `process_omr` leaves exactly the state, calls and outcome `Pipeline.ProcessOmr` gives. |
| Api.Host.Process | api.py:182-197 | (corrected outer except) The in-place handler gives exactly the reply, state and calls `Handle` gives. |

## Left out

- The network is an oracle from URL to reply. Timeouts, redirects, headers and chunk sizes are not modelled; a reply is a status, a list of chunks and whether the stream broke.
- The network oracle gives one reply per URL for the whole job. Two steps with the same URL (say `template_url` equal to `config_url`) get the same reply, although two real GETs may not.
- Fetch.Download: a stream that breaks after some chunks is modelled as writing all chunks that arrived. File-write errors other than a missing parent directory or a directory at the target are not modelled.
- A roll is joined the way pathlib joins it: cut at `/`, with empty and `.` parts dropped. A `..` part is kept as a name, since the OS would only resolve it below a directory the fresh workspace lacks.
- Pipeline.WorkspaceTargetsWritable, SucceedsIffDelivered, StopsAtFirstUndelivered, FirstUndeliveredFails, MissingKeyAborts, ImageFailureNamesRoll, AllDeliveredFetchesAll, AllDeliveredReachesEngine, AllDeliveredConcludes, MissingOutputsShowsOuterExcept and Api.FailedDownloadIsOk require the rolls up to the step in question to hold no `/`. SlashedRollFails covers the other case: such a sheet never downloads and ends the job with its failure message.
- JSON values other than strings for the URLs and rolls, JSON `null` for `auto_align`/`set_layout`, and list entries that are not objects are not modelled.
- A truthy body that is not a JSON object (a list, a number) is not modelled. It makes `request_data[...]` raise `TypeError` inside the outer `try`.
- The fixed entries `"status": "success"` and `"message": "OMR processing completed successfully"` of the success dictionary (api.py:159, :162) are implicit in `JobResult.Success`, which holds only the two entries that vary.
- Error texts quote the path as `'<path>'`. CPython uses `repr()`, which switches to double quotes for a path holding `'` and escapes backslashes; only the root path could hold either.
- The `jsonify` serialization of the engine's responses is assumed to succeed, and the responses are opaque string maps.
- Logging, the `finally` clause (it only logs), `health_check`, the Flask wiring, and the `downloaded_images` list are not modelled. The list is built at lines 107-110 and never used.
- `datetime.now()` is the parameter `ts`. Two requests within the same second, and concurrency in general, are not modelled beyond the `FileExistsError` of a request directory that already exists.
- The engine (config load, `Template`, `process_dir`) is an oracle from the call it receives to its responses or its exception message. Its own behaviour, and anything it writes to the output directory, are not modelled.
- Api.Host.Engine: a success-path `rmtree` that raises is modelled as removing nothing. A partial removal before the error is not modelled.
- Path rendering is `/` followed by the components. Symlinks, relative roots and case-insensitive filesystems are not modelled.
- Flask's own refusals of a body (wrong content type, malformed JSON) are one case, `Unreadable`, answered with 500 as the handler's `except` does.
- The image steps are computed from the image list before the loop runs. This is equivalent to the source, because reading `img['roll']` and `img['url']` has no effect on the downloads.
- The text of the `UnboundLocalError` is CPython 3.11's. Nothing downstream depends on it.

## Findings

| source | as written | input that shows it | evidently intended | confidence | as-written member | corrected member |
|---|---|---|---|---|---|---|
| api.py:149-174 | `import shutil` inside the inner `try` makes `shutil` a local name of all of `process_omr`. In the outer `except`, which is only reached before that import runs, `shutil.rmtree` raises `UnboundLocalError`. The request directory stays and the exception escapes, so `/process` answers 500. | A JSON body without `template_url`, on a filesystem where the workspace can be made (`MissingTemplateShowsOuterExcept`). Also any fully delivered job on an install without `outputs` (`MissingOutputsShowsOuterExcept`). | The outer `except` removes the request directory, ignoring errors, and returns `{"error": "Processing failed: 'template_url'"}` with status 200. | not executed; high (Python scoping rule) | Pipeline.ProcessOmrAsWritten | Pipeline.ProcessOmr |
