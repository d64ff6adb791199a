/**
 * The event loop of Folder_watcher (watcher/folder_monit.go): the watcher
 * goroutine's `for`/`select` loop, processed sequentially over a finite
 * stream of received values; the end of the stream is the channel closing.
 * The state is the remote account, the set of watched paths and whether the
 * loop still runs. `Step` and `Run` say what the loop does; `HandleCreate`
 * and `FolderWatcher` do it on the mutable account and watcher.
 */
module EventLoop {
  import opened Wrappers
  import opened YouTube
  import opened Walk
  import Names

  /** fsnotify.Op, a bit mask with one bit per kind of change. */
  type Op = bv32

  const CreateOp: Op := 1
  const WriteOp: Op := 2
  const RemoveOp: Op := 4
  const RenameOp: Op := 8
  const ChmodOp: Op := 16

  datatype Event = Event(name: string, op: Op)

  /** What os.Stat reports for the event path. */
  datatype Stat = IsDirectory | IsRegular | StatFailed

  /** The world's answers while one event is handled. */
  datatype World = World(
    stat: Stat,             // os.Stat on the event path
    found: Found,           // what filepath.Walk finds at the event path (os.Lstat)
    addFails: set<string>,  // paths for which watcher.Add fails
    listOk: bool,           // the playlist list request succeeds
    insert: Reply,          // answer to the playlist insert request
    opens: bool,            // os.Open of the file succeeds
    upload: Reply,          // answer to the video insert request
    attachOk: bool)         // the playlist item insert request succeeds

  /**
   * One receive of the select: an event, an error from the watcher's error
   * channel, or the closing of either channel.
   */
  datatype Incoming = Notify(event: Event, world: World) | WatchError(message: string) | Closed

  /**
   * Running; the goroutine has returned (main then blocks on `done` forever
   * and no event is handled again); or the process has exited.
   */
  datatype Status = Running | GoroutineReturned | ProcessExited

  datatype Pipeline = Pipeline(account: Account, watches: set<string>, status: Status)

  /** The event is a creation: its Create bit is set, whatever other bits are set with it. */
  predicate IsCreate(op: Op)
    ensures IsCreate(op) <==> op & CreateOp != 0
    ensures IsCreate(op) <==> (op | WriteOp | RemoveOp | RenameOp | ChmodOp) & CreateOp == CreateOp
  {
    op & CreateOp == CreateOp
  }

  /** isDir: a regular file and a path whose os.Stat fails both count as "not a directory". */
  predicate IsDir(stat: Stat)
    ensures !IsDir(stat) <==> stat == IsRegular || stat == StatFailed
  {
    stat == IsDirectory
  }

  /** As many playlist items were added between `a` and `b` as videos. */
  predicate UploadsLinked(a: Account, b: Account) {
    |b.videos| + |a.items| == |b.items| + |a.videos|
  }

  const TitleDelimiter := "."
  const UploadDescription := ""
  const UploadTags := ["a"]

  /** The handling of one create event. */
  function HandleCreateSpec(p: Pipeline, ev: Event, w: World): Pipeline {
    var name := Names.PlaylistName(ev.name);
    var (a1, playlist) := CreatePlaylistSpec(p.account, name, name, w.listOk, w.insert);
    if IsDir(w.stat) then
      Pipeline(a1, p.watches + Register(Visits(TreeAt(ev.name, w.found)), w.addFails).added, p.status)
    else if playlist.Failure? then
      Pipeline(a1, p.watches, GoroutineReturned)
    else
      var title := Names.GetTitleFromFileName(ev.name, TitleDelimiter);
      var (a2, video) := UploadVideoSpec(a1, ev.name, title, UploadDescription, UploadTags, w.opens, w.upload);
      if video.ProcessExit? then
        Pipeline(a2, p.watches, ProcessExited)
      else
        var (a3, err) := AddVideoToPlaylistSpec(a2, playlist.value, video.id, w.attachOk);
        Pipeline(a3, p.watches, if err.Some? then GoroutineReturned else p.status)
  }

  /**
   * One turn of the select loop. A stopped loop stays stopped, and a turn
   * after which the loop still runs has linked every video it uploaded.
   */
  function Step(p: Pipeline, input: Incoming): (q: Pipeline)
    ensures p.status != Running ==> q.status != Running
    ensures q.status == Running ==> UploadsLinked(p.account, q.account)
  {
    match input
    case WatchError(_) => p
    case Closed => p.(status := GoroutineReturned)
    case Notify(ev, w) => if IsCreate(ev.op) then HandleCreateSpec(p, ev, w) else p
  }

  /**
   * The loop over a stream of received values, until it stops. A stopped
   * loop handles nothing; while it runs, every uploaded video is linked.
   */
  function Run(p: Pipeline, inputs: seq<Incoming>): (q: Pipeline)
    ensures p.status != Running ==> q == p
    ensures q.status == Running ==> UploadsLinked(p.account, q.account)
    decreases |inputs|
  {
    if inputs == [] || p.status != Running then p
    else Run(Step(p, inputs[0]), inputs[1..])
  }

  /**
   * Folder_watcher: set-up (YouTubeSetup and fsnotify.NewWatcher, both
   * folded into `setupOk`), registration of the tree at `dir`, then the
   * loop; the end of the stream is a closed channel.
   */
  function FolderWatcherSpec(a: Account, setupOk: bool, dir: string, rootFound: Found,
                             rootAddFails: set<string>, inputs: seq<Incoming>): Pipeline
  {
    if !setupOk then Pipeline(a, {}, ProcessExited)
    else
      var reg := Register(Visits(TreeAt(dir, rootFound)), rootAddFails);
      if reg.err.Some? then Pipeline(a, reg.added, ProcessExited)
      else
        var p := Run(Pipeline(a, reg.added, Running), inputs);
        if p.status == Running then p.(status := GoroutineReturned) else p
  }

  /**
   * The handling of a create event: a directory gets a playlist and is
   * walked; a file gets a playlist, is uploaded and is linked into it.
   */
  method HandleCreate(ev: Event, w: World, watcher: Watcher, account: RemoteAccount) returns (status: Status)
    modifies watcher, account
    ensures Pipeline(account.State(), watcher.watches, status) ==
            HandleCreateSpec(Pipeline(old(account.State()), old(watcher.watches), Running), ev, w)
  {
    var name := Names.PlaylistName(ev.name);
    status := Running;
    if IsDir(w.stat) {
      var ignoredPlaylist := account.CreatePlaylist(name, name, w.listOk, w.insert);
      var ignoredErr := AddDirToWatcher(TreeAt(ev.name, w.found), watcher, w.addFails);
      return;
    }
    var playlist := account.CreatePlaylist(name, name, w.listOk, w.insert);
    if playlist.Failure? {
      return GoroutineReturned;
    }
    var title := Names.GetTitleFromFileName(ev.name, TitleDelimiter);
    var video := account.UploadVideo(ev.name, title, UploadDescription, UploadTags, w.opens, w.upload);
    if video.ProcessExit? {
      return ProcessExited;
    }
    var err := account.AddVideoToPlaylist(playlist.value, video.id, w.attachOk);
    if err.Some? {
      return GoroutineReturned;
    }
  }

  /** One turn of the select loop, against the watcher and the account. */
  method Receive(input: Incoming, watcher: Watcher, account: RemoteAccount) returns (status: Status)
    modifies watcher, account
    ensures Pipeline(account.State(), watcher.watches, status) ==
            Step(Pipeline(old(account.State()), old(watcher.watches), Running), input)
  {
    status := Running;
    match input {
      case WatchError(_) =>
      case Closed =>
        status := GoroutineReturned;
      case Notify(ev, w) =>
        if IsCreate(ev.op) {
          status := HandleCreate(ev, w, watcher, account);
        }
    }
  }

  /**
   * The goroutine's loop, run against the watcher and the account until the
   * stream ends or the loop stops.
   */
  method ServeEvents(watcher: Watcher, account: RemoteAccount, inputs: seq<Incoming>) returns (status: Status)
    modifies watcher, account
    ensures Pipeline(account.State(), watcher.watches, status) ==
            Run(Pipeline(old(account.State()), old(watcher.watches), Running), inputs)
  {
    ghost var start := Pipeline(account.State(), watcher.watches, Running);
    status := Running;
    var i := 0;
    while i < |inputs| && status == Running
      invariant 0 <= i <= |inputs|
      invariant Run(Pipeline(account.State(), watcher.watches, status), inputs[i..]) == Run(start, inputs)
    {
      assert inputs[i..][1..] == inputs[i + 1..];
      status := Receive(inputs[i], watcher, account);
      i := i + 1;
    }
    assert Run(Pipeline(account.State(), watcher.watches, status), inputs[i..])
        == Pipeline(account.State(), watcher.watches, status);
  }

  /** Folder_watcher, run against the remote account over a finite stream. */
  method FolderWatcher(account: RemoteAccount, setupOk: bool, dir: string, rootFound: Found,
                       rootAddFails: set<string>, inputs: seq<Incoming>) returns (watches: set<string>, status: Status)
    modifies account
    ensures Pipeline(account.State(), watches, status) ==
            FolderWatcherSpec(old(account.State()), setupOk, dir, rootFound, rootAddFails, inputs)
  {
    if !setupOk {
      return {}, ProcessExited;
    }
    var watcher := new Watcher();
    var err := AddDirToWatcher(TreeAt(dir, rootFound), watcher, rootAddFails);
    if err.Some? {
      return watcher.watches, ProcessExited;
    }
    assert watcher.watches == Register(Visits(TreeAt(dir, rootFound)), rootAddFails).added;
    status := ServeEvents(watcher, account, inputs);
    watches := watcher.watches;
    if status == Running {
      status := GoroutineReturned;
    }
  }

  /** Events without the Create bit, such as Write, Remove, Rename or Chmod alone, change nothing. */
  lemma NonCreateEventsIgnored(p: Pipeline, ev: Event, w: World)
    requires ev.op & CreateOp == 0
    ensures Step(p, Notify(ev, w)) == p
    ensures !IsCreate(WriteOp | RemoveOp | RenameOp | ChmodOp)
  {
  }

  /** Errors from the watcher's error channel are printed and the loop goes on. */
  lemma WatchErrorsContinue(p: Pipeline, message: string, rest: seq<Incoming>)
    requires p.status == Running
    ensures Run(p, [WatchError(message)] + rest) == Run(p, rest)
  {
    assert ([WatchError(message)] + rest)[1..] == rest;
  }

  /**
   * A created directory gets a playlist request whose result and error are
   * ignored, and the tree at the event path is then walked and registered,
   * whatever the playlist request did; the loop keeps running. The
   * directory itself ends up watched exactly when os.Lstat sees a directory
   * whose entries can be read and its watcher.Add succeeds; a link to a
   * directory, which os.Stat follows but os.Lstat does not, adds nothing.
   */
  lemma DirectoryCreateRegisters(p: Pipeline, ev: Event, w: World)
    requires p.status == Running && IsCreate(ev.op) && IsDir(w.stat)
    ensures var q := Step(p, Notify(ev, w));
            var tree := TreeAt(ev.name, w.found);
      && q.status == Running
      && q.account == CreatePlaylistSpec(p.account, Names.PlaylistName(ev.name), Names.PlaylistName(ev.name),
                                         w.listOk, w.insert).0
      && q.watches == p.watches + Register(Visits(tree), w.addFails).added
      && q.watches <= p.watches + DirPaths(tree)
      && (Register(Visits(tree), w.addFails).err.None? ==> q.watches == p.watches + DirPaths(tree))
      && (ev.name in q.watches <==> ev.name in p.watches || (w.found.Entries? && ev.name !in w.addFails))
      && (!w.found.Entries? ==> q.watches == p.watches)
  {
    RegisterTree(TreeAt(ev.name, w.found), w.addFails);
    RegisterRoot(ev.name, w.found, w.addFails);
  }

  /**
   * A file whose playlist cannot be resolved or created is not uploaded:
   * the requests sent are the list and the refused insert, and the
   * goroutine returns.
   */
  lemma FilePlaylistFailureStops(p: Pipeline, ev: Event, w: World)
    requires p.status == Running && IsCreate(ev.op) && !IsDir(w.stat)
    requires CreatePlaylistSpec(p.account, Names.PlaylistName(ev.name), Names.PlaylistName(ev.name),
                                w.listOk, w.insert).1.Failure?
    ensures var q := Step(p, Notify(ev, w));
      && q.status == GoroutineReturned
      && q.watches == p.watches
      && q.account == p.account.(calls := p.account.calls +
                                   [ListPlaylists, InsertPlaylist(Names.PlaylistName(ev.name))])
  {
    var name := Names.PlaylistName(ev.name);
    LookupMeaning(if w.listOk then Some(p.account.playlists) else None, name);
  }

  /**
   * A file whose every remote step succeeds: the playlist requests, then
   * the video insert, then the playlist item insert, in that order; one
   * unlisted video titled from the event path and one item linking it to
   * the playlist; the loop keeps running.
   */
  lemma FileCreateSucceeds(p: Pipeline, ev: Event, w: World)
    requires p.status == Running && IsCreate(ev.op) && !IsDir(w.stat)
    requires CreatePlaylistSpec(p.account, Names.PlaylistName(ev.name), Names.PlaylistName(ev.name),
                                w.listOk, w.insert).1.Success?
    requires w.opens && w.upload.Assigned? && w.attachOk
    ensures var name := Names.PlaylistName(ev.name);
            var (a1, playlist) := CreatePlaylistSpec(p.account, name, name, w.listOk, w.insert);
            var title := Names.GetTitleFromFileName(ev.name, ".");
            var q := Step(p, Notify(ev, w));
      && q.status == Running
      && q.watches == p.watches
      && a1.calls[..|p.account.calls| + 1] == p.account.calls + [ListPlaylists]
      && q.account.calls == a1.calls + [InsertVideo(title, ev.name), InsertPlaylistItem(playlist.value, w.upload.id)]
      && q.account.playlists == a1.playlists
      && q.account.videos == p.account.videos + [Video(w.upload.id, title, "", "unlisted", false, ev.name)]
      && q.account.items == p.account.items + [PlaylistItem(playlist.value, "youtube#video", w.upload.id)]
  {
    var name := Names.PlaylistName(ev.name);
    var (a1, playlist) := CreatePlaylistSpec(p.account, name, name, w.listOk, w.insert);
    assert a1.calls[..|p.account.calls| + 1] == p.account.calls + [ListPlaylists];
    var title := Names.GetTitleFromFileName(ev.name, TitleDelimiter);
    var (a2, video) := UploadVideoSpec(a1, ev.name, title, UploadDescription, UploadTags, w.opens, w.upload);
    assert video == Uploaded(w.upload.id);
    var a3 := AddVideoToPlaylistSpec(a2, playlist.value, video.id, w.attachOk).0;
    assert Step(p, Notify(ev, w)) == Pipeline(a3, p.watches, Running);
  }

  /** A file that cannot be opened or uploaded ends the process; no playlist item is added. */
  lemma FileUploadFailureExits(p: Pipeline, ev: Event, w: World)
    requires p.status == Running && IsCreate(ev.op) && !IsDir(w.stat)
    requires CreatePlaylistSpec(p.account, Names.PlaylistName(ev.name), Names.PlaylistName(ev.name),
                                w.listOk, w.insert).1.Success?
    requires !w.opens || w.upload.Refused?
    ensures var q := Step(p, Notify(ev, w));
      q.status == ProcessExited && q.account.videos == p.account.videos && q.account.items == p.account.items
  {
  }

  /**
   * A failed attach leaves the video uploaded but unlinked, and the
   * goroutine returns.
   */
  lemma FileAttachFailureStops(p: Pipeline, ev: Event, w: World)
    requires p.status == Running && IsCreate(ev.op) && !IsDir(w.stat)
    requires CreatePlaylistSpec(p.account, Names.PlaylistName(ev.name), Names.PlaylistName(ev.name),
                                w.listOk, w.insert).1.Success?
    requires w.opens && w.upload.Assigned? && !w.attachOk
    ensures var q := Step(p, Notify(ev, w));
      && q.status == GoroutineReturned
      && |q.account.videos| == |p.account.videos| + 1
      && q.account.items == p.account.items
  {
  }

  /**
   * A created file that cannot be opened stops the loop: the goroutine
   * returns when its playlist fails, and the process exits otherwise.
   */
  lemma UnopenableFileStops(p: Pipeline, ev: Event, w: World)
    requires p.status == Running && IsCreate(ev.op) && !IsDir(w.stat) && !w.opens
    ensures Step(p, Notify(ev, w)).status != Running
  {
    var name := Names.PlaylistName(ev.name);
    var playlist := CreatePlaylistSpec(p.account, name, name, w.listOk, w.insert).1;
    if playlist.Success? {
      var q := Step(p, Notify(ev, w));
      assert q.status == ProcessExited;
    }
  }

  /**
   * A path that vanished before os.Stat is taken for a file: it is not
   * registered and a playlist request is sent for it. If its playlist
   * resolves, the failing open ends the process; otherwise the goroutine
   * returns. Either way the loop stops.
   */
  lemma VanishedPathTakesFileBranch(p: Pipeline, ev: Event, w: World)
    requires p.status == Running && IsCreate(ev.op) && w.stat == StatFailed
    ensures var q := Step(p, Notify(ev, w));
      && q.watches == p.watches
      && |q.account.calls| > |p.account.calls|
      && q.account.calls[|p.account.calls|] == ListPlaylists
      && ((!w.opens && CreatePlaylistSpec(p.account, Names.PlaylistName(ev.name), Names.PlaylistName(ev.name),
                                          w.listOk, w.insert).1.Success?) ==> q.status == ProcessExited)
      && (!w.opens ==> q.status != Running)
  {
    if !w.opens {
      UnopenableFileStops(p, ev, w);
    }
    var name := Names.PlaylistName(ev.name);
    var (a1, playlist) := CreatePlaylistSpec(p.account, name, name, w.listOk, w.insert);
    assert a1.calls[|p.account.calls|] == ListPlaylists;
    var q := HandleCreateSpec(p, ev, w);
    if playlist.Success? {
      var title := Names.GetTitleFromFileName(ev.name, TitleDelimiter);
      var (a2, video) := UploadVideoSpec(a1, ev.name, title, UploadDescription, UploadTags, w.opens, w.upload);
      UploadVideoGrows(a1, ev.name, title, UploadDescription, UploadTags, w.opens, w.upload);
      if video.Uploaded? {
        AddVideoToPlaylistGrows(a2, playlist.value, video.id, w.attachOk);
      }
    }
  }

  /** Running a stream in two pieces is running it whole. */
  lemma {:induction false} RunAppend(p: Pipeline, xs: seq<Incoming>, ys: seq<Incoming>)
    ensures Run(p, xs + ys) == Run(Run(p, xs), ys)
    decreases |xs|
  {
    if xs == [] {
      assert xs + ys == ys;
    } else if p.status == Running {
      assert (xs + ys)[0] == xs[0];
      assert (xs + ys)[1..] == xs[1..] + ys;
      RunAppend(Step(p, xs[0]), xs[1..], ys);
    }
  }

  /** Once the loop has stopped, nothing received later is handled. */
  lemma {:induction false} NothingAfterStop(p: Pipeline, xs: seq<Incoming>, ys: seq<Incoming>)
    requires Run(p, xs).status != Running
    ensures Run(p, xs + ys) == Run(p, xs)
  {
    RunAppend(p, xs, ys);
  }

  /**
   * Two files in a row: when the first one's attach fails, the second one
   * is not handled at all.
   */
  lemma {:induction false} AttachFailureDropsLaterEvents(p: Pipeline, ev1: Event, w1: World, rest: seq<Incoming>)
    requires p.status == Running && IsCreate(ev1.op) && !IsDir(w1.stat)
    requires CreatePlaylistSpec(p.account, Names.PlaylistName(ev1.name), Names.PlaylistName(ev1.name),
                                w1.listOk, w1.insert).1.Success?
    requires w1.opens && w1.upload.Assigned? && !w1.attachOk
    ensures Run(p, [Notify(ev1, w1)] + rest) == Step(p, Notify(ev1, w1))
  {
    FileAttachFailureStops(p, ev1, w1);
    var first := [Notify(ev1, w1)];
    assert first[1..] == [];
    NothingAfterStop(p, first, rest);
  }

  /** `a` is a prefix of `b`, for every part of the account. */
  predicate AccountGrows(a: Account, b: Account) {
    && a.playlists <= b.playlists
    && a.videos <= b.videos
    && a.items <= b.items
    && a.calls <= b.calls
  }

  lemma CreatePlaylistGrows(a: Account, title: string, description: string, listOk: bool, insert: Reply)
    ensures AccountGrows(a, CreatePlaylistSpec(a, title, description, listOk, insert).0)
  {
  }

  lemma UploadVideoGrows(a: Account, filePath: string, title: string, description: string,
                         tags: seq<string>, opens: bool, upload: Reply)
    ensures AccountGrows(a, UploadVideoSpec(a, filePath, title, description, tags, opens, upload).0)
  {
  }

  lemma AddVideoToPlaylistGrows(a: Account, playlistId: string, videoId: string, ok: bool)
    ensures AccountGrows(a, AddVideoToPlaylistSpec(a, playlistId, videoId, ok).0)
  {
  }

  lemma AccountGrowsTransitive(a: Account, b: Account, c: Account)
    requires AccountGrows(a, b) && AccountGrows(b, c)
    ensures AccountGrows(a, c)
  {
  }

  lemma HandleCreateGrows(p: Pipeline, ev: Event, w: World)
    ensures AccountGrows(p.account, HandleCreateSpec(p, ev, w).account)
    ensures p.watches <= HandleCreateSpec(p, ev, w).watches
  {
    var name := Names.PlaylistName(ev.name);
    var (a1, playlist) := CreatePlaylistSpec(p.account, name, name, w.listOk, w.insert);
    CreatePlaylistGrows(p.account, name, name, w.listOk, w.insert);
    if !IsDir(w.stat) && playlist.Success? {
      var title := Names.GetTitleFromFileName(ev.name, TitleDelimiter);
      var (a2, video) := UploadVideoSpec(a1, ev.name, title, UploadDescription, UploadTags, w.opens, w.upload);
      UploadVideoGrows(a1, ev.name, title, UploadDescription, UploadTags, w.opens, w.upload);
      AccountGrowsTransitive(p.account, a1, a2);
      if video.Uploaded? {
        var a3 := AddVideoToPlaylistSpec(a2, playlist.value, video.id, w.attachOk).0;
        AddVideoToPlaylistGrows(a2, playlist.value, video.id, w.attachOk);
        AccountGrowsTransitive(p.account, a2, a3);
      }
    }
  }

  /** A closed channel ends the loop; nothing received afterwards is handled. */
  lemma {:induction false} ClosedChannelStops(p: Pipeline, rest: seq<Incoming>)
    requires p.status == Running
    ensures Run(p, [Closed] + rest) == p.(status := GoroutineReturned)
  {
    assert ([Closed] + rest)[0] == Closed;
    assert ([Closed] + rest)[1..] == rest;
    assert Run(p.(status := GoroutineReturned), rest) == p.(status := GoroutineReturned);
  }

  lemma StepGrows(p: Pipeline, input: Incoming)
    ensures AccountGrows(p.account, Step(p, input).account)
    ensures p.watches <= Step(p, input).watches
  {
    if input.Notify? && IsCreate(input.event.op) {
      HandleCreateGrows(p, input.event, input.world);
    }
  }

  /**
   * The loop only adds: watches are never removed, and the account's
   * playlists, videos, items and requests only grow at the end.
   */
  lemma {:induction false} RunGrows(p: Pipeline, xs: seq<Incoming>)
    ensures AccountGrows(p.account, Run(p, xs).account)
    ensures p.watches <= Run(p, xs).watches
    decreases |xs|
  {
    if xs != [] && p.status == Running {
      StepGrows(p, xs[0]);
      RunGrows(Step(p, xs[0]), xs[1..]);
    }
  }

  /**
   * Inputs are handled one after another in arrival order: the requests
   * sent for `xs` all come before those sent for the inputs after them,
   * and what `xs` left in the account is kept.
   */
  lemma {:induction false} EventsHandledInOrder(p: Pipeline, xs: seq<Incoming>, ys: seq<Incoming>)
    ensures AccountGrows(Run(p, xs).account, Run(p, xs + ys).account)
  {
    RunAppend(p, xs, ys);
    RunGrows(Run(p, xs), ys);
  }

  /**
   * After a successful initial registration every directory of the tree at
   * `dir` is watched, for whatever stream follows. A failing initial
   * registration ends the process; when `dir` itself cannot be read or
   * added, nothing is watched at all. When `dir` is not a directory to
   * os.Lstat (a file, or a link to a directory), the registration watches
   * nothing and reports no error: the loop starts with nothing watched.
   */
  lemma {:induction false} RootTreeWatched(a: Account, dir: string, rootFound: Found,
                                           rootAddFails: set<string>, inputs: seq<Incoming>)
    ensures var root := TreeAt(dir, rootFound);
      Register(Visits(root), rootAddFails).err.None? ==>
        DirPaths(root) <= FolderWatcherSpec(a, true, dir, rootFound, rootAddFails, inputs).watches
    ensures var root := TreeAt(dir, rootFound);
      Register(Visits(root), rootAddFails).err.Some? ==>
        FolderWatcherSpec(a, true, dir, rootFound, rootAddFails, inputs).status == ProcessExited
    ensures rootFound.CannotRead? || (rootFound.Entries? && dir in rootAddFails) ==>
              FolderWatcherSpec(a, true, dir, rootFound, rootAddFails, inputs) == Pipeline(a, {}, ProcessExited)
    ensures rootFound.NotADirectory? ==>
              var p := Run(Pipeline(a, {}, Running), inputs);
              var q := FolderWatcherSpec(a, true, dir, rootFound, rootAddFails, inputs);
              q.account == p.account && q.watches == p.watches && (p.status != ProcessExited ==> q.status == GoroutineReturned)
    ensures rootFound.NotADirectory? ==>
              FolderWatcherSpec(a, true, dir, rootFound, rootAddFails, []) == Pipeline(a, {}, GoroutineReturned)
  {
    var root := TreeAt(dir, rootFound);
    var reg := Register(Visits(root), rootAddFails);
    RegisterTree(root, rootAddFails);
    RegisterRoot(dir, rootFound, rootAddFails);
    RunGrows(Pipeline(a, reg.added, Running), inputs);
  }
}
