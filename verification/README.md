# pcloud-async-api in Dafny

A model of the request-building and streaming core of `pcloud-async-api`, an
asynchronous Rust client for the pCloud storage API, with proofs of what that
core promises.

What is modelled:

- **The change-event stream** (`src/events.rs`).
  - `DiffRequestBuilder::get` decides which query parameters one `diff` call carries.
  - `stream_once` de-duplicates one fetched batch against the cursor, publishes the
    newer entries in order and returns the next cursor. It appears twice: as a
    specification function and as the source's send loop, and the two are proved equal.
  - The `stream` driver is a pure step function. Its state is the configuration, the
    cursor, whether the consumer has dropped the receiver, and whether the loop has
    exited. One step consumes one fetch outcome (`Fetched(batch)`, `TimedOut` or
    `Failed`) and the consumer's behaviour in that round.
  - `filter_stream` appears twice as well: as a specification and as the receive/test/send loop.
- **Folder and file targets** (`src/folder_ops.rs`, `src/file_ops.rs`).
  - Conversions from a path string, an id, `Metadata` or a `FileOrFolderStat` to an
    id-or-path target.
  - The check every builder constructor makes, the builders' defaults, and the query
    each `execute`/`get` sends.
  - Every query is a map from parameter to value. Each one has a decoder, and the
    decoder reads the builder back from the query.
  - Every value sent has its parameter's type (`Query.WellFormed`). So a parameter
    is present exactly when it reads back, and an option that is not set is not sent.
- **Low-level files** (`src/low_level_file.rs`).
  - The open flags and their numeric sum.
  - The `by_*` guards.
  - The `open` flag of a handle through `close` and `drop`.
- **Remote zip** (`src/remote_zip.rs`).
  - The `to_path`/`to_folder` builders.
  - The `remaining` count.
  - The progress-polling task.
- **The data model** (`src/pcloud_model.rs`).
  - The `PCloudResult` code table and the `DiffEvent` enumeration.
  - The `Diff`/`DiffEntry` shapes.
  - The decode of a `Diff` without `entries`, and the optional-date decode fallback.

Modules: `Wrappers` (Option/Result), `Seqs` (filtering), `PCloudModel`, `Query`
(parameters, values, requests), `FolderOps`, `FileOps`, `LowLevelFile`, `RemoteZip`,
`Events` and `EventsLemmas`.

Inputs that the model turns into parameters:

- The outcome of each HTTP call.
- The moment the consumer drops a receiver: `closeAt` in `Events`, `receiverOpen` in `RemoteZip`.
- The outcome of a close call.
- The date parser and formatter, passed as functions.

Behaviour where the code was followed rather than what a reader might expect:

- An empty batch does not move the cursor (`src/events.rs:129-131`). A stream started
  without a cursor therefore never asks the service to block while batches come back
  empty (`EventsLemmas.EmptyBatchesNeverBlock`).
- A non-empty batch moves the cursor to the batch's `diffid` even when the receiver was
  already closed and nothing was sent (`src/events.rs:113-128`).
- A folder conversion from a failed stat reply gives `InvalidPath`. A file conversion from
  one gives `InvalidFileOrFolderName` (`src/folder_ops.rs:106`, `src/file_ops.rs:87`).
- Converting metadata copies its (optional) id. Folder metadata without a `folderid`
  converts to a target that names nothing. The builder constructors then reject it with
  `NoFileIdOrPathProvided`. `to_folder` in `src/remote_zip.rs` has no such check
  (`RemoteZip.ZipToFolderDoesNotRequireTarget`).
- `InvalidFileId` and `InvalidFolderId`, which the `by_*` guards raise, are not variants
  of the `PCloudResult` table. The model gives them their own error type, `OpenError`.
- If an explicit `close` fails, `?` returns before `open` is cleared. The drop then sends
  a second `file_close`. So a handle sends at most one close request only when `close`
  succeeds or is never called, and never more than two (`LowLevelFile.CloseCount`).

## Model

| member | source | states |
|---|---|---|
| PCloudModel.Code | src/pcloud_model.rs:7-38 | every result has a `u16` code that reads back to it; `Ok` is exactly code 0 |
| PCloudModel.FromCodeInverse | src/pcloud_model.rs:7-38 | every code in the table reads back to a result whose code is that code |
| PCloudModel.CodeInjective | src/pcloud_model.rs:9-38 | distinct results have distinct codes |
| PCloudModel.DiffEventClosed | src/pcloud_model.rs:206-240 | every event is one of 15 distinct variants |
| PCloudModel.EventName | src/pcloud_model.rs:206-240 | the lower-case wire name of every event parses back to that event |
| PCloudModel.DecodeDiff | src/pcloud_model.rs:180-185 | a diff decodes iff `diffid` is present; a missing `entries` decodes as the empty list, a present one is kept |
| PCloudModel.DiffRoundTrip | src/pcloud_model.rs:180-185 | encoding a diff (with empty entries skipped) and decoding it gives the diff back |
| PCloudModel.DecodeDate | src/pcloud_model.rs:541-548 | a required date decodes iff the value is a string the parser accepts, to the parser's result |
| PCloudModel.DecodeOptionalDate | src/pcloud_model.rs:584-602 | a value that is not a string decodes to no date; a string decodes iff it parses, to the parsed date |
| PCloudModel.OptionalDateRoundTrip | src/pcloud_model.rs:564-602 | whenever parsing inverts formatting, serializing an optional date and decoding it gives it back |
| Query.ReadBackIffSent | src/events.rs:191-206 | in a query whose values have their parameters' types, an id, time, text or switch parameter is present iff it reads back, as a parameter guarded by `if let Some` is sent iff set |
| FolderOps.FolderFromPath | src/folder_ops.rs:16-60 | a string converts iff it starts with `/`, otherwise `InvalidPath`; `"/"` becomes id 0 with no path, any other absolute path becomes that path with no id |
| FolderOps.ResolveFolder | src/folder_ops.rs:62-80 | an id converts to that id alone; strings and ids always give a target that names a folder |
| FolderOps.FolderFromMetadata | src/folder_ops.rs:82-96 | metadata converts iff it is a folder, to its folder id and no path; otherwise `InvalidFileOrFolderName` |
| FolderOps.FolderFromStat | src/folder_ops.rs:98-108 | a stat reply converts iff it is `Ok`, carries metadata and that metadata is a folder; without `Ok` and metadata the error is `InvalidPath` |
| FolderOps.DeleteFolderFor | src/folder_ops.rs:122-140 | the constructor fails iff conversion fails (with its error) or the target names nothing (`NoFileIdOrPathProvided`); otherwise it keeps the target |
| FolderOps.DeleteFolderExecute | src/folder_ops.rs:143-190 | a get to `deletefolderrecursive` or `deletefolder` as asked; every parameter holds a value of its type, and the target reads back from `folderid`/`path` |
| FolderOps.CreateFolderFor | src/folder_ops.rs:216-238 | fails iff conversion fails or the parent names nothing; otherwise keeps parent and name, and `if_not_exists` defaults to true |
| FolderOps.CreateFolderExecute | src/folder_ops.rs:246-270 | a get where `if_not_exists` alone selects `createfolderifnotexists` over `createfolder`; `name` is always sent; every parameter holds a value of its type and the builder reads back from the query |
| FolderOps.CopyFolderFor | src/folder_ops.rs:305-334 | fails iff either conversion fails (source first) or either target names nothing; otherwise keeps both, no new name, `overwrite` true |
| FolderOps.CopyFolderExecute | src/folder_ops.rs:355-395 | as written: `noover` is sent iff `overwrite` is false, `skipexisting` iff `skip_existing` is false, `copycontentonly` iff `copy_content_only` is false; the builder reads back from the query |
| FolderOps.CopyFolderDefaultsInverted | src/folder_ops.rs:383-393 | a freshly built copy sends `skipexisting=1` and `copycontentonly=1` although both options default to off |
| FolderOps.CopyFolderExecuteIntended | src/folder_ops.rs:296-299 | corrected: `skipexisting` and `copycontentonly` are sent iff their option is set; `noover` as before; the builder reads back |
| FolderOps.MoveFolderFor | src/folder_ops.rs:425-452 | fails iff either conversion fails or either target names nothing; otherwise keeps both targets and no new name |
| FolderOps.MoveFolderExecute | src/folder_ops.rs:460-490 | a `renamefolder` post whose query reads back to the builder |
| FolderOps.ListFolderFor | src/folder_ops.rs:519-542 | fails iff conversion fails or the target names nothing; all four switches default to off |
| FolderOps.ListFolderGet | src/folder_ops.rs:568-600 | each of `recursive`, `showdeleted`, `nofiles`, `noshares` is sent iff its option is set; the builder reads back |
| FolderOps.OnlyMetadataCanNameNothing | src/folder_ops.rs:131-139 | only metadata or a stat reply can convert to a target that names nothing, and such a target is refused with `NoFileIdOrPathProvided` |
| FileOps.ResolveFile | src/file_ops.rs:24-90 | a string converts to that path alone (no leading-`/` check), an id to that id alone; only metadata and stat replies can fail, with `InvalidFileOrFolderName` |
| FileOps.FileFromMetadata | src/file_ops.rs:64-78 | metadata converts iff it is not a folder, to its file id and no path |
| FileOps.FileFromStat | src/file_ops.rs:80-90 | a stat reply converts iff it is `Ok` with metadata that is not a folder; every failure is `InvalidFileOrFolderName` |
| FileOps.CopyFileFor | src/file_ops.rs:117-148 | fails iff a conversion fails or the source file or target folder names nothing; `overwrite` defaults to true, no name or times |
| FileOps.CopyFileExecute | src/file_ops.rs:188-232 | a `copyfile` post; `noover=1` is sent iff `overwrite` is false; the builder reads back from the query |
| FileOps.MoveFileFor | src/file_ops.rs:263-291 | fails iff a conversion fails or the source or target names nothing; no new name or revision by default |
| FileOps.MoveFileExecute | src/file_ops.rs:305-337 | a `renamefile` post whose query reads back to the builder |
| FileOps.UploadInto | src/file_ops.rs:370-394 | fails iff conversion fails or the folder names nothing; `no_partial` defaults to true, `rename_if_exists` to false |
| FileOps.AddFile | src/file_ops.rs:428-433 | adding a file appends one part and changes nothing else |
| FileOps.UploadCall | src/file_ops.rs:447-485 | an `uploadfile` post with `nopartial`/`renameifexists` iff set; every value fits its type and the builder reads back |
| FileOps.Upload | src/file_ops.rs:435-485 | with no files the reply is `Ok` with no ids and no metadata and nothing is sent; otherwise an `uploadfile` post with `nopartial`/`renameifexists` iff set, reading back to the builder |
| FileOps.AddedFileIsUploaded | src/file_ops.rs:428-445 | after adding a file the upload is sent and carries that file |
| FileOps.FileRequestFor | src/file_ops.rs:697-717 | each single-file constructor (revisions, checksum, delete, download, stat) fails iff conversion fails or the file names nothing; no revision by default |
| FileOps.WithRevision | src/file_ops.rs:777-781 | choosing a revision sets it and changes nothing else |
| FileOps.FileRequestGet | src/file_ops.rs:783-805 | each single-file request goes to its endpoint; `fileid`, `path` and `revisionid` are each sent iff set, with a value of their type, and read back from the query |
| FileOps.PublicLinkFor | src/file_ops.rs:509-533 | fails iff conversion fails or the file names nothing; no expiry, limits, short link, password or revision by default |
| FileOps.PublicLinkGet | src/file_ops.rs:575-616 | a `getfilepublink` get; `shortlink` iff set; the builder reads back from the query |
| LowLevelFile.ToNumber | src/low_level_file.rs:36-46 | each flag's number is a distinct power of two (bits 1, 6, 7, 9, 10) and reads back to the flag |
| LowLevelFile.ToNumberInjective | src/low_level_file.rs:36-46 | distinct flags have distinct numbers |
| LowLevelFile.FlagsSumOrderIndependent | src/low_level_file.rs:152 | summing the flags of a set in any enumeration order gives the same value |
| LowLevelFile.FlagsValueIsBitwiseOr | src/low_level_file.rs:152 | bit `Bit(f)` of the sum is set iff `f` is in the set, so the sum is the bitwise OR; it is at most `0x6C2`, reached by all five flags |
| LowLevelFile.FlagsRoundTrip | src/low_level_file.rs:152 | the set of flags can be read back from the sum |
| LowLevelFile.ByFileId | src/low_level_file.rs:61-84 | conversion errors pass through; otherwise it fails with `InvalidFileId` iff the file has no id, and opens by that id alone with no flags |
| LowLevelFile.ByFilePath | src/low_level_file.rs:86-96 | sets only the path, with no flags |
| LowLevelFile.ByFileInFolder | src/low_level_file.rs:98-121 | conversion errors pass through; otherwise it fails with `InvalidFolderId` iff the folder has no id, and opens by folder id and name |
| LowLevelFile.PathsAreNotIds | src/low_level_file.rs:71-82 | a path never opens by file id; a folder path opens by folder iff it is `"/"` |
| LowLevelFile.WithFlag | src/low_level_file.rs:140-143 | adding a flag inserts it into the set and changes nothing else |
| LowLevelFile.WithFlagIdempotent | src/low_level_file.rs:140-143 | adding a flag twice is adding it once, and the order of additions does not matter |
| LowLevelFile.OpenGet | src/low_level_file.rs:146-170 | a `file_open` get whose `flags` is the sum of the set (for any order of summing); `path`, `fileid`, `folderid` and `name` are each sent iff set; every value fits its type (the flags fit the source's `u16`) and the builder reads back |
| LowLevelFile.Opened | src/low_level_file.rs:181-186 | a freshly opened handle is open with the reply's descriptor and file id |
| LowLevelFile.CloseRequest | src/low_level_file.rs:206-224 | a close is a `file_close` carrying only the descriptor |
| LowLevelFile.AfterClose | src/low_level_file.rs:227-231 | after `close` the handle is open iff it was open and the close failed |
| LowLevelFile.DropRequests | src/low_level_file.rs:261-280 | drop sends one close iff the handle is open, and none otherwise |
| LowLevelFile.Disposal | src/low_level_file.rs:227-280 | everything sent while disposing of a handle is a close of its descriptor |
| LowLevelFile.CloseCount | src/low_level_file.rs:227-263 | an opened handle sends exactly one close unless an explicit close fails, then exactly two |
| LowLevelFile.ClosedHandleIsSilent | src/low_level_file.rs:262-263 | dropping a closed handle sends nothing |
| RemoteZip.ZipToPath | src/remote_zip.rs:51-60 | sets only the target path |
| RemoteZip.ZipToFolder | src/remote_zip.rs:63-81 | fails iff conversion fails; otherwise takes path and id from the folder, sets the name and no progress hash |
| RemoteZip.ZipToFolderDoesNotRequireTarget | src/remote_zip.rs:71-80 | folder metadata without an id is accepted as a zip target naming nothing, which the folder builders refuse |
| RemoteZip.SaveZipGet | src/remote_zip.rs:161-195 | a `savezip` get whose query reads back to the builder |
| RemoteZip.WithProgressHash | src/remote_zip.rs:123-130 | the request with progress notification is the request with the generated hash set, nothing else changed |
| RemoteZip.ProgressGet | src/remote_zip.rs:86-100 | a progress poll is a `savezipprogress` get carrying only the hash |
| RemoteZip.PolledKeyIsSentKey | src/remote_zip.rs:120-141 | the hash the task polls with is the hash the zip request carried |
| RemoteZip.Remaining | src/remote_zip.rs:109 | defined iff `files <= totalfiles`, and then `remaining + files == totalfiles` |
| RemoteZip.PollStep | src/remote_zip.rs:103-154 | a failed poll keeps polling; an underflow panics; a failed send keeps polling and delivers nothing; a delivered record ends the loop iff nothing remains |
| RemoteZip.PollStepPreserves | src/remote_zip.rs:108-112 | each round keeps the invariant: records are well formed, only the last may report nothing remaining, finished iff it did |
| RemoteZip.PollRunInvariant | src/remote_zip.rs:136-154 | over any run the invariant holds and delivered records are only ever appended: the final record is delivered before the loop exits |
| RemoteZip.FinishesIffNothingRemains | src/remote_zip.rs:144-148 | a round finishes the loop iff the poll succeeds, the record is delivered and it reports 0 remaining |
| RemoteZip.PollsForeverOnceDropped | src/remote_zip.rs:136-154 | as written: once the receiver is gone, no run of rounds ever changes the task's state |
| RemoteZip.CompletionUnnoticedOnceDropped | src/remote_zip.rs:109-110 | as written: a completed archive reported after the drop leaves the task polling |
| RemoteZip.PollStepIntended | src/remote_zip.rs:149-152 | corrected: a failed send stops the task; everything else is as written |
| RemoteZip.IntendedStopsOnceDropped | src/remote_zip.rs:136-154 | corrected: after the drop, the first successful poll ends the task and nothing more is delivered |
| RemoteZip.StoppedStays | src/remote_zip.rs:136-154 | corrected: a task that has stopped stays stopped |
| Events.Create | src/events.rs:54-64 | a new request has no cursor, date, count, limit or timeout and does not block |
| Events.CreateSendsNothing | src/events.rs:54-64 | a new request sends no parameter |
| Events.DiffGet | src/events.rs:187-222 | `block=1` is sent iff blocking is asked for and a cursor is set; `diffid`, `after`, `last` and `limit` are each sent iff set; every value fits its type; the request reads back except for a cursor-less `block` |
| Events.StreamOnce | src/events.rs:106-132 | fetch errors publish nothing; an empty batch keeps the cursor; a non-empty one returns its `diffid` when no send fails; what is published is a prefix of the newer entries, all of them while the consumer listens; a send fails iff the consumer leaves part-way |
| Events.SendNewer | src/events.rs:116-126 | the send loop publishes exactly the entries newer than the cursor, in order, cut off at the first refused send |
| Events.StreamOnceLoop | src/events.rs:106-132 | the loop as the source runs it computes `StreamOnce` |
| Events.StreamCapacity | src/events.rs:137-142 | the channel holds `limit` entries if set, else 128; it is 0 iff the limit is 0 |
| Events.BatchFitsChannel | src/events.rs:136-142 | with a limit, what a batch that honours it publishes fits into the stream's channel when that channel is empty |
| Events.FilterStream | src/events.rs:14-33 | the output is a prefix of the filtered input, all of it while the consumer listens, otherwise as many as it accepts |
| Events.FilterStage | src/events.rs:21-30 | the receive/test/send loop computes `FilterStream`; after a refused send the rest of the input is never read |
| Events.RoundRequest | src/events.rs:149-162 | each round asks with the cursor, `after` only while there is no cursor, `block` always on, `last`, `limit` and `timeout` copied |
| Events.Start | src/events.rs:147 | the driver starts from the configured cursor |
| Events.Step | src/events.rs:148-179 | a closed or exited driver makes no call; otherwise one call with `RoundRequest`; success replaces the cursor, a timeout keeps it, fatal and send failures exit |
| EventsLemmas.RoundCallShape | src/events.rs:149-162 | the call of each round sends `after` only without a cursor and `block=1` exactly when there is a cursor |
| EventsLemmas.PublishesExactlyNewer | src/events.rs:116-121 | with cursor `old`, an entry is published iff it is in the batch with `diffid > old`, in batch order |
| EventsLemmas.PublishesAllWithoutCursor | src/events.rs:122-125 | without a cursor the whole batch is published, in order |
| EventsLemmas.BatchMovesCursor | src/events.rs:113-131 | a non-empty batch moves the cursor even when the receiver is already closed; an empty one never does |
| EventsLemmas.TimeoutIsTransparent | src/events.rs:168-174 | a timed-out round changes nothing: the run continues as if it had not happened, apart from the call |
| EventsLemmas.ExitedDriverIsSilent | src/events.rs:148 | a closed or exited driver makes no more calls and publishes nothing |
| EventsLemmas.FailureEndsStream | src/events.rs:175-177 | after a fatal fetch error nothing is published and no further call is made |
| EventsLemmas.DropEndsStream | src/events.rs:148 | after the round in which the consumer drops the receiver, no further call is made and nothing more is published |
| EventsLemmas.EmptyBatchesNeverBlock | src/events.rs:129-131 | a stream started without a cursor that only gets empty batches keeps no cursor and never sends `block` |
| EventsLemmas.StepKeepsOrder | src/events.rs:148-179 | one round keeps the published `diffid`s strictly increasing and bounded by the cursor |
| EventsLemmas.RunKeepsOrder | src/events.rs:146-181 | over any run of well-formed batches with non-decreasing `diffid`s, the published `diffid`s stay strictly increasing |
| EventsLemmas.StreamIsIncreasing | src/events.rs:135-184 | the entries of a stream have strictly increasing `diffid`s when the service's batches are well formed and in order |
| EventsLemmas.BackwardsReplyRepublishes | src/events.rs:113-131 | without the ordering assumption, a batch whose `diffid` moves backwards makes the stream publish an entry twice |
| EventsLemmas.FilteredStream | src/events.rs:14-33 | a filtered stream is the filter of the stream and keeps its order |

## Left out

- HTTP, JSON and timeouts: every call's outcome is an input. `Fetch` is `Fetched`, `TimedOut` or `Failed`; a poll is a record or a failure; a close succeeds or fails.
- Tokio tasks and channels: the consumer's drop is an input, and no interleavings are modelled. Backpressure is not modelled: a send into a full channel waits, and that wait is invisible here. For the same reason the capacities of the filter stage's channel (128, `src/events.rs:18`) and of the progress channel (32, `src/remote_zip.rs:133`) are not modelled: they change when a send waits, never what is delivered.
- A drop that happens between the closed check of `stream_once` and its first send is modelled as a drop before the check. Both publish nothing more and make no further call (`EventsLemmas.DropEndsStream`). They differ in the cursor. In the source the first send fails, the round returns an error and the loop exits with the old cursor (`src/events.rs:120-124`, `src/events.rs:175-177`). The model returns the batch's `diffid`. The cursor is never used again in either case.
- A limit of 0 makes the channel library panic. The model only shows that the capacity is then 0 (`Events.StreamCapacity`).
- `EventsLemmas.StreamIsIncreasing` assumes the service's batches are strictly increasing, bounded by the batch `diffid`, and in non-decreasing `diffid` order. `EventsLemmas.BackwardsReplyRepublishes` shows the property fails without this.
- `RemoteZip.Remaining` models the `u64` subtraction as a panic on underflow, as in a debug build. A release build would wrap around instead.
- Date formatting and parsing (chrono) are parameters. Setting a time stores its formatted value; the format itself is not modelled.
- `src/pcloud_client.rs`: login, logout, API-server discovery and the token attached to every request. This is authentication and I/O plumbing.
- The `Display` strings of `PCloudResult`, and the categories and icons of the data model. These are text and plain data with no behaviour.
- `Tree::add_to_request`, the response records `SaveZipProgressResponse`, `FileOpenResponse` and `FileCloseResponse`, and `PublicFileDownloadRequestBuilder`. These are not part of this model.
- The `file_write` call of an open file, and the bodies of upload parts. Both are multipart I/O; an upload part is its name only.
- Builder setters are record updates. The ones with their own contract are `AddFile`, `WithRevision`, `WithFlag` and `WithProgressHash`.

## Findings

| source | as written | input that shows it | evidently intended | confidence | as-written member | corrected member |
|---|---|---|---|---|---|---|
| src/folder_ops.rs:387-393 | `skipexisting=1` is sent when `skip_existing` is false, and `copycontentonly=1` when `copy_content_only` is false | a copy built with the defaults sends both switches, so it skips existing files and copies only the content | each switch is sent when its option is set, as the field documentation at lines 296-299 says | not executed; high | FolderOps.CopyFolderDefaultsInverted | FolderOps.CopyFolderExecuteIntended |
| src/remote_zip.rs:136-154 | a failed send into the progress channel is logged like a failed poll, and the loop goes on | the caller drops the receiver, then the service reports `totalfiles=1, files=1`: the task keeps polling once a second without end | the task stops once nobody listens | not executed; medium | RemoteZip.CompletionUnnoticedOnceDropped | RemoteZip.IntendedStopsOnceDropped |
