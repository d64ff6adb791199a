# Folder-to-YouTube uploader: the ingestion pipeline in Dafny

The uploader watches a directory tree with fsnotify. For every created
directory it requests a playlist and extends the watch to the new subtree.
For every created file it requests a playlist, uploads the file as a video
and links the video into the playlist. This project models that pipeline:

- `GoStrings` (`go_strings.dfy`): the parts of Go's `strings` package the
  pipeline relies on. These are `Index`, `Split` (including the empty
  separator, which splits into single characters) and a one-character
  `ReplaceAll`. The proofs cover splitting and joining back, and the first
  and last part of a split.
- `Names` (`names.dfy`): the name rules of `watcher/folder_monit.go`. These
  are `getTitleFromFileName`, `cleanFolderName`, and the playlist-name rule
  written inline in the event loop (the last `\`-separated part of the
  event path).
- `Walk` (`walk.dfy`): `addDirToWatcher`. `filepath.Walk` is a pre-order
  visit of an abstract file tree. The walk stops at the first error, and
  every directory visited before that error is registered with a `Watcher`
  object whose watch set grows in place.
- `YouTube` (`youtube.dfy`): the remote calls of `utube/youtube.go`.
  - `GetPlaylistIDByName` is a first-match loop over the listed playlists.
  - `CreatePlaylist`, `UploadVideo` and `AddVideoToPlaylist` are methods of
    a `RemoteAccount` object. The object holds the account's playlists,
    videos and playlist items, plus the trace of requests sent.
  - Each method is proved equal to a pure function of the old state and of
    the remote answers (success, refusal, an assigned id).
- `EventLoop` (`event_loop.dfy`): `Folder_watcher`.
  - The `select` loop becomes `Step`/`Run` over a finite stream of
    received values: events, watcher errors and channel closings.
  - `HandleCreate` and `FolderWatcher` run the loop against the mutable
    watcher and account, and are proved equal to those functions.
  - The lemmas give the outcome of each branch, the ordering of requests,
    and what stops the loop.

The file system, the remote service and fsnotify are parameters of the
model:
- os.Stat gives an `IsDirectory`, `IsRegular` or `StatFailed` answer.
- os.Lstat on the walked path finds a directory with its entries, a
  non-directory, or nothing readable (`Walk.Found`); `watcher.Add` fails
  on a given set of paths.
- Each remote request is answered by a flag or by a `Reply`.

The code does a few things its names do not suggest; the model follows
the code:

- A created file's playlist is named after the file's own last
  `\`-separated segment (`watcher/folder_monit.go:58-60`), not after its
  parent folder. `Names.PlaylistNameOfChild` proves that
  `C:\videos\Trip\clip1.mov` gives `clip1.mov`. On a `/`-separated path the
  rule finds no separator and keeps the whole path (see the ensures of
  `Names.PlaylistName`).
- The video title comes from the full event path
  (`watcher/folder_monit.go:65`), so it keeps the directory part
  (`Names.TitleKeepsDirectory`). A dot in a directory name cuts the title
  inside the directory part (`Names.TitleStopsAtDottedDirectory`).
- A path that vanished before os.Stat is not ignored. `isDir` reports
  false, so the path takes the file branch and a playlist request is sent
  for it. If the playlist resolves, the code tries to open the file, and
  the failed open ends the process; if it does not, the goroutine returns
  (`watcher/folder_monit.go:60-64`). Either way the loop stops
  (`EventLoop.VanishedPathTakesFileBranch`).
- A root path, or a created path, that os.Lstat does not see as a
  directory is walked as a single non-directory entry. filepath.Walk adds
  nothing for it and returns no error. This covers a regular file and a
  symbolic link to a directory, which os.Stat follows and os.Lstat does
  not. The directory creation at `main.go:11` ignores its error, so the
  root may be such a path. The loop then starts with nothing watched and
  the process does not exit (`EventLoop.RootTreeWatched`). A created link
  to a directory gets its playlist request but adds no watch
  (`EventLoop.DirectoryCreateRegisters`).
- A failed attach is not isolated to its event. The goroutine returns
  (`watcher/folder_monit.go:68-71`), and no later event is handled
  (`EventLoop.AttachFailureDropsLaterEvents`). A failed open or upload ends
  the process through `log.Fatalf` (`utube/youtube.go:125-129`).
- In the directory branch, the playlist result and the error from
  `addDirToWatcher` are both ignored (`watcher/folder_monit.go:54-56`).

## Model

| member | source | states |
|---|---|---|
| GoStrings.Index | watcher/folder_monit.go:169 | the index found is an occurrence of the separator; none is found exactly when the string holds no occurrence |
| GoStrings.IndexIsFirst | watcher/folder_monit.go:169 | the index found is the first occurrence: no occurrence starts before it |
| GoStrings.SplitOn | watcher/folder_monit.go:169 | splitting on a non-empty separator yields at least one part |
| GoStrings.Split | watcher/folder_monit.go:169 | a non-empty separator yields at least one part; the empty separator yields one part per character |
| GoStrings.Explode | watcher/folder_monit.go:169 | the empty-separator split gives the one-character strings of the input, in order |
| GoStrings.SplitJoin | watcher/folder_monit.go:169 | joining the parts of a split with the separator gives back the input |
| GoStrings.SplitPartsFree | watcher/folder_monit.go:169 | no part of a split contains the separator |
| GoStrings.HeadFree | watcher/folder_monit.go:172 | the text before the first separator holds no separator |
| GoStrings.SplitLastPart | watcher/folder_monit.go:111-112 | the last part of a split on a one-character separator is the last segment: a separator-free suffix preceded by the separator unless it is the whole input |
| GoStrings.LastSegmentUnique | watcher/folder_monit.go:111-112 | the last segment of a string is unique |
| GoStrings.ReplaceAllChar | watcher/folder_monit.go:110 | every `from` character is replaced by `to`, and all other characters and the length are kept |
| GoStrings.OccursAtChar | watcher/folder_monit.go:169 | a one-character separator occurs at `j` exactly when the character at `j` is that character |
| Names.GetTitleFromFileName | watcher/folder_monit.go:167-175 | the title is a prefix of the path and holds no delimiter, and no delimiter occurs before its end; it is followed by the delimiter unless it is the whole path, and it is the whole path exactly when the path holds no delimiter; with an empty delimiter it is the first character |
| Names.TitleUnique | watcher/folder_monit.go:167-175 | those properties determine the title |
| Names.TitleBeforeFirstDot | watcher/folder_monit.go:167-175 | the title of `head.rest` is `head` when `head` has no dot ("movie.part1.mkv" gives "movie") |
| Names.TitleKeepsDirectory | watcher/folder_monit.go:65 | the title of a path whose directory part has no dot is that directory part followed by the title of the file name |
| Names.TitleStopsAtDottedDirectory | watcher/folder_monit.go:65 | a dot in the directory part makes the title end inside the directory part |
| Names.CleanFolderName | watcher/folder_monit.go:108-113 | the result is the last segment of the input under both `/` and `\`; an input without separators comes back unchanged |
| Names.SlashedLastSegment | watcher/folder_monit.go:110-112 | the last `/`-segment after replacing `\` by `/` is the last segment under both separators |
| Names.CleanFolderNameIdempotent | watcher/folder_monit.go:108-113 | cleaning a cleaned name changes nothing |
| Names.CleanFolderNameOfChild | watcher/folder_monit.go:108-113 | `parent/name` and `parent\name` both give `name` |
| Names.LastSegmentHasNoSeparator | watcher/folder_monit.go:112 | a last segment holds none of the separators |
| Names.PlaylistName | watcher/folder_monit.go:51-52 | the playlist name is the last `\`-segment of the event path; a path without `\` is kept whole |
| Names.PlaylistNameOfChild | watcher/folder_monit.go:58-59 | the playlist name of `parent\name` is `name`, so a file gets its own name, extension included |
| Walk.Visits | watcher/folder_monit.go:138 | filepath.Walk visits the root first, as a directory exactly when it is one |
| Walk.VisitsAll | watcher/folder_monit.go:138 | the walk of a directory's entries makes at least one visit per entry |
| Walk.VisitsAllSplit | watcher/folder_monit.go:138 | the walk of a directory's entries is each entry's whole walk in turn: entry `i` is walked after the entries before it and before those after it |
| Walk.VisitsEachEntry | watcher/folder_monit.go:138 | every entry of a directory is visited: the visit of its own root is among the visits of the directory's entries |
| Walk.TreeAt | watcher/folder_monit.go:138 | the tree walked is rooted at the path given; it is a directory with the entries found exactly when os.Lstat sees a readable directory, and a single non-directory entry exactly when os.Lstat sees anything else |
| Walk.Register | watcher/folder_monit.go:137-152 | only visited directories are registered, all of them when no callback fails; an error is returned exactly when some visit fails, and it is a failing visit's error |
| Walk.RegisterRoot | watcher/folder_monit.go:138-151 | the walked path is registered exactly when it is a readable directory whose add succeeds; a non-directory registers nothing and returns no error; an unreadable path or a failing add registers nothing and returns that path's error |
| Walk.FirstFailure | watcher/folder_monit.go:138-151 | the visit at which the walk stops is the first one with a walk error or a failing watcher.Add, and there is none exactly when no visit fails |
| Walk.Watcher.Add | watcher/folder_monit.go:143-147 | a successful add puts the path in the watch set; a failed one leaves the set unchanged and reports the path |
| Walk.AddDirToWatcher | watcher/folder_monit.go:137-152 | the watch set grows by exactly the directories registered before the first failure, and the error returned is that failure's |
| Walk.DirsInVisits | watcher/folder_monit.go:138 | the directories met by the pre-order walk of a tree are exactly the tree's directories |
| Walk.RegisterTree | watcher/folder_monit.go:137-152 | only directories of the tree are registered and no file is; on success every directory, the root included, is registered |
| Walk.RegisterStopsAtFirstError | watcher/folder_monit.go:139-147 | the walk reports an error exactly when some visit fails; the error is the first failure's and the registered set is the directories visited before it |
| YouTube.FirstMatch | utube/youtube.go:172-176 | the index found is the first playlist with that exact title; there is none exactly when no title matches |
| YouTube.Lookup | utube/youtube.go:163-179 | a failed listing gives a list error; the only other error is not found; it succeeds exactly when the listing succeeds and holds a playlist with the title |
| YouTube.LookupMeaning | utube/youtube.go:163-179 | a failed listing gives a list error; not found is reported exactly when no listed title matches; a success is the id of the first matching playlist, and the first matching playlist's id is what a successful listing returns |
| YouTube.GetPlaylistIDByName | utube/youtube.go:163-179 | the loop returns the lookup's answer |
| YouTube.RemoteAccount.ListPlaylistsRequest | utube/youtube.go:164-170 | the listing is the account's playlists or a failure, and one list request is recorded |
| YouTube.RemoteAccount.CreatePlaylist | utube/youtube.go:181-206 | the new state and the result are those of the lookup-then-insert specification |
| YouTube.CreatePlaylistReusesExisting | utube/youtube.go:182-186 | a listed playlist with the title is returned and nothing is inserted |
| YouTube.CreatePlaylistInsertsOnMiss | utube/youtube.go:187-205 | on a failed lookup one public playlist is inserted and its id returned, or InsertFailed with the playlists unchanged |
| YouTube.CreatePlaylistIdempotent | utube/youtube.go:181-206 | two calls in a row with the same title return the same id, and at most one playlist is added |
| YouTube.RemoteAccount.UploadVideo | utube/youtube.go:131-160 | the new state and the outcome are those of the open-then-insert specification |
| YouTube.UploadVideoAddsUnlisted | utube/youtube.go:138-159 | a successful upload adds one unlisted video, not made for kids, with the given title, description and file, and returns its id |
| YouTube.UploadVideoFailureIsFatal | utube/youtube.go:132-155 | a failed open or a refused upload ends the process, and no video is added |
| YouTube.UploadVideoIgnoresTags | utube/youtube.go:138-143 | the tags play no part in the upload |
| YouTube.RemoteAccount.AddVideoToPlaylist | utube/youtube.go:226-245 | the new state and the error are those of the insert specification |
| YouTube.AddVideoToPlaylistEffect | utube/youtube.go:226-245 | a success adds exactly one `youtube#video` item linking the two ids; a failure adds nothing and reports the error |
| EventLoop.HandleCreate | watcher/folder_monit.go:45-73 | the account, the watch set and the loop status after a create event are those of the branch specification, whose directory branch walks the tree at the event path |
| EventLoop.FolderWatcher | watcher/folder_monit.go:14-94 | the account, the watch set and the final status are those of set-up, root registration and the loop |
| EventLoop.Receive | watcher/folder_monit.go:34-84 | one receive of the select, run on the watcher and the account, leaves them and the loop status as one turn of the loop specifies |
| EventLoop.ServeEvents | watcher/folder_monit.go:32-86 | the goroutine's loop, run on the watcher and the account, leaves them and the loop status as the loop over the stream specifies |
| EventLoop.NonCreateEventsIgnored | watcher/folder_monit.go:45 | an event without the Create bit changes nothing; Write, Remove, Rename and Chmod together have no Create bit |
| EventLoop.WatchErrorsContinue | watcher/folder_monit.go:79-83 | a watcher error is skipped and the loop goes on |
| EventLoop.ClosedChannelStops | watcher/folder_monit.go:36-38 | a closed channel ends the loop, and nothing received afterwards is handled |
| EventLoop.DirectoryCreateRegisters | watcher/folder_monit.go:49-56 | a created directory gets a playlist request whose result is ignored; the tree at the event path is registered (wholly when no add fails, never beyond its directories); the directory itself is watched exactly when os.Lstat sees a readable directory and its add succeeds, whatever the playlist request did; a link to a directory or an unreadable path adds no watch; the loop keeps running |
| EventLoop.FilePlaylistFailureStops | watcher/folder_monit.go:58-64 | when the playlist cannot be found or created, no upload happens: only the list and insert requests are sent and the goroutine returns |
| EventLoop.FileCreateSucceeds | watcher/folder_monit.go:58-72 | the list request comes first, then the playlist steps, then the video insert, then the item insert; one unlisted video titled from the event path and one item linking it to the playlist are added |
| EventLoop.FileUploadFailureExits | watcher/folder_monit.go:65 | a failed open or upload ends the process with no item added |
| EventLoop.UnopenableFileStops | watcher/folder_monit.go:57-65 | a created non-directory that cannot be opened stops the loop, whether or not its playlist resolves |
| EventLoop.FileAttachFailureStops | watcher/folder_monit.go:67-71 | a failed attach leaves the video uploaded and unlinked, and the goroutine returns |
| EventLoop.VanishedPathTakesFileBranch | watcher/folder_monit.go:129-135 | a path whose os.Stat fails is not registered and gets a playlist request first; when the file cannot be opened the loop stops, the process ending when the playlist resolved |
| EventLoop.RunAppend | watcher/folder_monit.go:33-85 | running a stream in two pieces is running it whole |
| EventLoop.NothingAfterStop | watcher/folder_monit.go:33-85 | once the loop has stopped, later inputs change nothing |
| EventLoop.AttachFailureDropsLaterEvents | watcher/folder_monit.go:67-71 | after a failed attach, no later input is handled |
| EventLoop.EventsHandledInOrder | watcher/folder_monit.go:33-85 | the requests for earlier inputs all come before those for later inputs, and what earlier inputs left in the account is kept |
| EventLoop.Step | watcher/folder_monit.go:34-84 | one turn of the select: a stopped loop stays stopped, and a turn after which the loop still runs has linked as many playlist items as it uploaded videos |
| EventLoop.Run | watcher/folder_monit.go:33-85 | the loop over a stream: a stopped loop handles nothing, and while it still runs as many playlist items have been added as videos |
| EventLoop.IsCreate | watcher/folder_monit.go:45 | an event counts as a creation exactly when its Create bit is set, whatever other bits come with it |
| EventLoop.IsDir | watcher/folder_monit.go:129-135 | a regular file and a path whose os.Stat fails both count as not a directory |
| EventLoop.StepGrows | watcher/folder_monit.go:33-85 | one turn of the loop removes no watch and removes nothing from the account |
| EventLoop.RunGrows | watcher/folder_monit.go:33-85 | watches are never removed; playlists, videos, items and requests only grow at the end |
| EventLoop.HandleCreateGrows | watcher/folder_monit.go:45-73 | handling a create event only adds to the account and the watch set |
| EventLoop.RootTreeWatched | watcher/folder_monit.go:88-92 | after a successful initial registration every directory of the tree at the root path is watched whatever follows; a failing one ends the process, and a root that cannot be read or added leaves nothing watched; a root that os.Lstat does not see as a directory watches nothing, reports no error and leaves the loop to run from an empty watch set |

## Left out

- The OAuth token flow of `YouTubeSetup` (token file, browser, `openInBrowser`) is not modelled. Set-up success and `fsnotify.NewWatcher` success are one flag. Either failure makes `Folder_watcher` return, which the model counts as the process ending.
- Concurrency is not modelled. The goroutine and the initial registration run at the same time in the source. The model registers the root before it handles any event. So it does not capture events handled during the initial walk, or videos uploaded before a fatal error in the root registration ends the process.
- The final state in which main blocks on `done` forever is the status `GoroutineReturned`.
- `getFolderName` and `checkFileOrFolder` are not modelled. The first is never called, and the second only logs.
- What os.Lstat finds at the walked path is a parameter (`Walk.Found`), and so are the entries of a directory. The walked tree's root is the walked path itself, but the paths of its entries are given, not derived from the parent's path. Which symbolic links exist is left to these parameters: os.Stat's answer and os.Lstat's answer for a path are independent inputs.
- `getPathWithFile` (`filepath.Join` of `filepath.Dir` and `filepath.Base`) is not modelled. The upload path is the event path itself.
- Logging and printing are not modelled.
- YouTube.RemoteAccount.ListPlaylistsRequest: the list request returns every playlist of the account, in the order they were created. The source reads a single response page, in whatever order the service returns. That order decides which of two playlists with the same title is reused.
- YouTube.CreatePlaylistIdempotent: the list request is modelled as returning every playlist of the account. The source reads a single response page and never follows the next-page token, so a playlist that is missing from that page would be inserted again. The list call (`utube/youtube.go:164-165`) sets no page size, and the service returns five items per page by default, so once the account has more than five playlists a re-insert is likely.
- The request bodies' part lists (`snippet`, `status`, `contentDetails`) are not modelled. The media upload itself is represented by the file path.
- The fsnotify Op constants follow the fsnotify package: Create 1, Write 2, Remove 4, Rename 8, Chmod 16. The rest of fsnotify is not modelled.
- Go strings are byte strings. The model works on characters, so a multi-byte `\` or `.` cannot arise.
- `strings.ReplaceAll` is modelled only for the one-character replacement the source uses.
- The panic of `strings.Split("", "")[0]` is excluded by the precondition of `Names.GetTitleFromFileName`. The source only calls it with the delimiter `"."`.
- `main.go` is not modelled. It creates the `chokidar_re` directory, ignoring any error, and starts `Folder_watcher` on its absolute path. Any answer of os.Lstat for that root is therefore a possible input.
- The `playground/` programs are not modelled. They are experiments outside the pipeline.
