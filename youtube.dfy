/**
 * The playlist and video operations of utube/youtube.go, over an abstract
 * remote account. The account's playlists, videos and playlist items are
 * sequences; every request sent to the remote service is also recorded, in
 * order, in `calls`, whether or not it succeeded. The remote service's
 * answers (does the list request succeed, which id does an insert get, does
 * the file open) are inputs.
 */
module YouTube {
  import opened Wrappers

  datatype Playlist = Playlist(id: string, title: string, description: string, privacy: string)

  datatype Video = Video(id: string, title: string, description: string, privacy: string,
                         madeForKids: bool, media: string)

  datatype PlaylistItem = PlaylistItem(playlistId: string, kind: string, videoId: string)

  /** A request sent to the remote service. */
  datatype Call =
    | ListPlaylists
    | InsertPlaylist(title: string)
    | InsertVideo(title: string, media: string)
    | InsertPlaylistItem(playlistId: string, videoId: string)

  /** The remote service's answer to an insert: the id it assigned, or a failure. */
  datatype Reply = Assigned(id: string) | Refused

  /** The errors the operations return to their caller. */
  datatype Error = ListFailed | NotFound(name: string) | InsertFailed | AttachFailed

  /** What makes UploadVideo end the process through log.Fatalf. */
  datatype FatalCause = OpenFailed | UploadFailed

  /** UploadVideo either returns the new video's id or ends the process. */
  datatype Upload = Uploaded(id: string) | ProcessExit(cause: FatalCause)

  /** The remote account as a value. */
  datatype Account = Account(playlists: seq<Playlist>, videos: seq<Video>,
                             items: seq<PlaylistItem>, calls: seq<Call>)

  const PublicPrivacy := "public"
  const UnlistedPrivacy := "unlisted"
  const VideoKind := "youtube#video"

  /** `k` is the position of the first playlist titled `name`. */
  predicate IsFirstMatch(playlists: seq<Playlist>, name: string, k: nat) {
    && k < |playlists|
    && playlists[k].title == name
    && forall j :: 0 <= j < k ==> playlists[j].title != name
  }

  /** The position of the first playlist whose title is exactly `name`. */
  function FirstMatch(playlists: seq<Playlist>, name: string): (r: Option<nat>)
    ensures r.Some? ==> IsFirstMatch(playlists, name, r.value)
    ensures r.None? <==> forall j :: 0 <= j < |playlists| ==> playlists[j].title != name
  {
    if playlists == [] then None
    else if playlists[0].title == name then Some(0)
    else
      match FirstMatch(playlists[1..], name)
      case None => None
      case Some(k) => Some(k + 1)
  }

  /**
   * What GetPlaylistIDByName returns for a listing (`None` when the list
   * request failed): the id of the first playlist with the title, or an error.
   */
  function Lookup(listing: Option<seq<Playlist>>, name: string): (r: Result<string, Error>)
    ensures listing.None? ==> r == Failure(ListFailed)
    ensures r.Failure? ==> r.error == ListFailed || r.error == NotFound(name)
    ensures r.Success? <==> listing.Some? && exists j :: 0 <= j < |listing.value| && listing.value[j].title == name
  {
    match listing
    case None => Failure(ListFailed)
    case Some(playlists) =>
      match FirstMatch(playlists, name)
      case None => Failure(NotFound(name))
      case Some(k) => Success(playlists[k].id)
  }

  /** Lookup finds the first playlist titled `name`, and fails exactly when there is none or the list failed. */
  lemma LookupMeaning(listing: Option<seq<Playlist>>, name: string)
    ensures listing.None? ==> Lookup(listing, name) == Failure(ListFailed)
    ensures Lookup(listing, name) == Failure(NotFound(name)) <==>
              listing.Some? && forall j :: 0 <= j < |listing.value| ==> listing.value[j].title != name
    ensures Lookup(listing, name).Success? ==>
              listing.Some? && exists k: nat :: IsFirstMatch(listing.value, name, k) &&
                                          Lookup(listing, name).value == listing.value[k].id
    ensures forall k: nat :: listing.Some? && IsFirstMatch(listing.value, name, k) ==>
              Lookup(listing, name) == Success(listing.value[k].id)
  {
    if listing.Some? && FirstMatch(listing.value, name).Some? {
      var k := FirstMatch(listing.value, name).value;
      assert IsFirstMatch(listing.value, name, k);
    }
    forall k: nat | listing.Some? && IsFirstMatch(listing.value, name, k)
      ensures Lookup(listing, name) == Success(listing.value[k].id)
    {
      if FirstMatch(listing.value, name) != Some(k) {
        assert false;
      }
    }
  }

  /**
   * GetPlaylistIDByName, after the list request: a scan of the listed
   * playlists that returns the first exact title match.
   */
  method GetPlaylistIDByName(listing: Option<seq<Playlist>>, name: string) returns (r: Result<string, Error>)
    ensures r == Lookup(listing, name)
  {
    if listing.None? {
      return Failure(ListFailed);
    }
    var playlists := listing.value;
    var i := 0;
    while i < |playlists|
      invariant 0 <= i <= |playlists|
      invariant forall j :: 0 <= j < i ==> playlists[j].title != name
    {
      if playlists[i].title == name {
        assert IsFirstMatch(playlists, name, i);
        return Success(playlists[i].id);
      }
      i := i + 1;
    }
    return Failure(NotFound(name));
  }

  /** CreatePlaylist: the account afterwards and the result. */
  function CreatePlaylistSpec(a: Account, title: string, description: string,
                              listOk: bool, insert: Reply): (Account, Result<string, Error>)
  {
    var listed := a.(calls := a.calls + [ListPlaylists]);
    var found := Lookup(if listOk then Some(a.playlists) else None, title);
    if found.Success? then (listed, found)
    else
      var asked := listed.(calls := listed.calls + [InsertPlaylist(title)]);
      match insert
      case Refused => (asked, Failure(InsertFailed))
      case Assigned(id) =>
        (asked.(playlists := asked.playlists + [Playlist(id, title, description, PublicPrivacy)]), Success(id))
  }

  /** UploadVideo: the account afterwards and the result. The tags are not used. */
  function UploadVideoSpec(a: Account, filePath: string, title: string, description: string,
                           tags: seq<string>, opens: bool, upload: Reply): (Account, Upload)
  {
    if !opens then (a, ProcessExit(OpenFailed))
    else
      var asked := a.(calls := a.calls + [InsertVideo(title, filePath)]);
      match upload
      case Refused => (asked, ProcessExit(UploadFailed))
      case Assigned(id) =>
        (asked.(videos := asked.videos + [Video(id, title, description, UnlistedPrivacy, false, filePath)]),
         Uploaded(id))
  }

  /** AddVideoToPlaylist: the account afterwards and the error returned, if any. */
  function AddVideoToPlaylistSpec(a: Account, playlistId: string, videoId: string, ok: bool): (Account, Option<Error>)
  {
    var asked := a.(calls := a.calls + [InsertPlaylistItem(playlistId, videoId)]);
    if ok then (asked.(items := asked.items + [PlaylistItem(playlistId, VideoKind, videoId)]), None)
    else (asked, Some(AttachFailed))
  }

  /** The remote account, changed in place by the operations. */
  class RemoteAccount {
    var playlists: seq<Playlist>
    var videos: seq<Video>
    var items: seq<PlaylistItem>
    var calls: seq<Call>

    function State(): Account
      reads this
    {
      Account(playlists, videos, items, calls)
    }

    constructor (initial: Account)
      ensures State() == initial
    {
      playlists, videos, items, calls := initial.playlists, initial.videos, initial.items, initial.calls;
    }

    /**
     * The list request for the account's own playlists: all of them, in the
     * order they were created, or a failure.
     */
    method ListPlaylistsRequest(ok: bool) returns (listing: Option<seq<Playlist>>)
      modifies this
      ensures listing == if ok then Some(old(playlists)) else None
      ensures State() == old(State()).(calls := old(calls) + [ListPlaylists])
    {
      calls := calls + [ListPlaylists];
      listing := if ok then Some(playlists) else None;
    }

    /** CreatePlaylist: reuse the first playlist with the title, otherwise insert a public one. */
    method CreatePlaylist(title: string, description: string, listOk: bool, insert: Reply)
      returns (r: Result<string, Error>)
      modifies this
      ensures (State(), r) == CreatePlaylistSpec(old(State()), title, description, listOk, insert)
    {
      var listing := ListPlaylistsRequest(listOk);
      var existing := GetPlaylistIDByName(listing, title);
      if existing.Success? {
        return existing;
      }
      calls := calls + [InsertPlaylist(title)];
      match insert {
        case Refused =>
          r := Failure(InsertFailed);
        case Assigned(id) =>
          playlists := playlists + [Playlist(id, title, description, PublicPrivacy)];
          r := Success(id);
      }
    }

    /** UploadVideo: open the file, insert an unlisted video; any failure ends the process. */
    method UploadVideo(filePath: string, title: string, description: string, tags: seq<string>,
                       opens: bool, upload: Reply) returns (u: Upload)
      modifies this
      ensures (State(), u) == UploadVideoSpec(old(State()), filePath, title, description, tags, opens, upload)
    {
      if !opens {
        return ProcessExit(OpenFailed);
      }
      calls := calls + [InsertVideo(title, filePath)];
      match upload {
        case Refused =>
          u := ProcessExit(UploadFailed);
        case Assigned(id) =>
          videos := videos + [Video(id, title, description, UnlistedPrivacy, false, filePath)];
          u := Uploaded(id);
      }
    }

    /** AddVideoToPlaylist: insert one playlist item linking the video. */
    method AddVideoToPlaylist(playlistId: string, videoId: string, ok: bool) returns (err: Option<Error>)
      modifies this
      ensures (State(), err) == AddVideoToPlaylistSpec(old(State()), playlistId, videoId, ok)
    {
      calls := calls + [InsertPlaylistItem(playlistId, videoId)];
      if ok {
        items := items + [PlaylistItem(playlistId, VideoKind, videoId)];
        err := None;
      } else {
        err := Some(AttachFailed);
      }
    }
  }

  /** A playlist titled `title` already listed is returned, and nothing is inserted. */
  lemma CreatePlaylistReusesExisting(a: Account, title: string, description: string, insert: Reply, k: nat)
    requires IsFirstMatch(a.playlists, title, k)
    ensures CreatePlaylistSpec(a, title, description, true, insert) ==
              (a.(calls := a.calls + [ListPlaylists]), Success(a.playlists[k].id))
  {
    assert FirstMatch(a.playlists, title) == Some(k);
  }

  /**
   * When the lookup fails, for any reason, a public playlist is inserted;
   * its id is returned, or InsertFailed with the playlists unchanged.
   */
  lemma CreatePlaylistInsertsOnMiss(a: Account, title: string, description: string, listOk: bool, insert: Reply)
    requires !listOk || forall j :: 0 <= j < |a.playlists| ==> a.playlists[j].title != title
    ensures var (b, r) := CreatePlaylistSpec(a, title, description, listOk, insert);
      && b.calls == a.calls + [ListPlaylists, InsertPlaylist(title)]
      && b.videos == a.videos && b.items == a.items
      && (insert.Assigned? ==>
            b.playlists == a.playlists + [Playlist(insert.id, title, description, "public")] &&
            r == Success(insert.id))
      && (insert.Refused? ==> b.playlists == a.playlists && r == Failure(InsertFailed))
  {
  }

  /**
   * Two CreatePlaylist calls in a row with the same title, with the list
   * requests and the first insert succeeding, return the same id and add
   * at most one playlist.
   */
  lemma {:induction false} CreatePlaylistIdempotent(a: Account, title: string, d1: string, d2: string,
                                                   insert1: Reply, insert2: Reply)
    requires insert1.Assigned?
    ensures var (b, r1) := CreatePlaylistSpec(a, title, d1, true, insert1);
            var (c, r2) := CreatePlaylistSpec(b, title, d2, true, insert2);
      && r1.Success? && r2 == r1
      && c.playlists == b.playlists
      && |c.playlists| <= |a.playlists| + 1
  {
    var (b, r1) := CreatePlaylistSpec(a, title, d1, true, insert1);
    match FirstMatch(a.playlists, title)
    case Some(k) =>
      assert b.playlists == a.playlists;
      assert FirstMatch(b.playlists, title) == Some(k);
    case None =>
      var n := |a.playlists|;
      assert b.playlists == a.playlists + [Playlist(insert1.id, title, d1, PublicPrivacy)];
      assert IsFirstMatch(b.playlists, title, n);
      assert FirstMatch(b.playlists, title) == Some(n);
  }

  /** A successful upload adds one unlisted video, not made for kids, and returns its id. */
  lemma UploadVideoAddsUnlisted(a: Account, filePath: string, title: string, description: string,
                                tags: seq<string>, id: string)
    ensures UploadVideoSpec(a, filePath, title, description, tags, true, Assigned(id)) ==
              (a.(videos := a.videos + [Video(id, title, description, "unlisted", false, filePath)],
                  calls := a.calls + [InsertVideo(title, filePath)]),
               Uploaded(id))
  {
  }

  /** An open failure or an upload failure ends the process, and no video is added. */
  lemma UploadVideoFailureIsFatal(a: Account, filePath: string, title: string, description: string,
                                  tags: seq<string>, opens: bool, upload: Reply)
    requires !opens || upload.Refused?
    ensures var (b, u) := UploadVideoSpec(a, filePath, title, description, tags, opens, upload);
      u.ProcessExit? && b.videos == a.videos && b.playlists == a.playlists && b.items == a.items
  {
  }

  /** The tags play no part in an upload. */
  lemma UploadVideoIgnoresTags(a: Account, filePath: string, title: string, description: string,
                               tags1: seq<string>, tags2: seq<string>, opens: bool, upload: Reply)
    ensures UploadVideoSpec(a, filePath, title, description, tags1, opens, upload) ==
            UploadVideoSpec(a, filePath, title, description, tags2, opens, upload)
  {
  }

  /** Attaching adds exactly one item of kind youtube#video on success and nothing on failure. */
  lemma AddVideoToPlaylistEffect(a: Account, playlistId: string, videoId: string, ok: bool)
    ensures var (b, err) := AddVideoToPlaylistSpec(a, playlistId, videoId, ok);
      && b.playlists == a.playlists && b.videos == a.videos
      && b.calls == a.calls + [InsertPlaylistItem(playlistId, videoId)]
      && (ok ==> err.None? && b.items == a.items + [PlaylistItem(playlistId, "youtube#video", videoId)])
      && (!ok ==> err == Some(AttachFailed) && b.items == a.items)
  {
  }
}
