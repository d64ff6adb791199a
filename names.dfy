/**
 * The name helpers of watcher/folder_monit.go: the video title taken from
 * an event path, the playlist name taken from an event path, and
 * `cleanFolderName`. All three are a `strings.Split` followed by picking
 * the first or the last part.
 */
module Names {
  import opened Wrappers
  import opened GoStrings

  /**
   * getTitleFromFileName: the first part of `fileName` split on `delimiter`,
   * that is the text before the first occurrence of the delimiter, or the
   * whole input when the delimiter is absent. With an empty delimiter Go
   * splits after every character, and `strings.Split("", "")` has no first
   * part, so that one input panics and is excluded.
   */
  function GetTitleFromFileName(fileName: string, delimiter: string): (title: string)
    requires delimiter != [] || fileName != []
    ensures title <= fileName
    ensures delimiter == [] ==> title == fileName[..1]
    ensures delimiter != [] ==> FreeBefore(fileName, delimiter, |title|)
    ensures delimiter != [] ==> Free(title, delimiter)
    ensures delimiter != [] && title != fileName ==> OccursAt(fileName, delimiter, |title|)
    ensures delimiter != [] ==> (title == fileName <==> Free(fileName, delimiter))
  {
    if delimiter == [] then
      Split(fileName, delimiter)[0]
    else
      IndexIsFirst(fileName, delimiter);
      match Index(fileName, delimiter)
      case None => Split(fileName, delimiter)[0]
      case Some(i) =>
        HeadFree(fileName, delimiter, i);
        Split(fileName, delimiter)[0]
  }

  /** ReplaceAll of `\` by `/` keeps a last segment on `/` a last segment on both separators. */
  lemma SlashedLastSegment(r: string, s: string)
    requires LastSegmentOf(r, ReplaceAllChar(s, '\\', '/'), {'/'})
    ensures LastSegmentOf(r, s, {'/', '\\'})
  {
    var t := ReplaceAllChar(s, '\\', '/');
    forall k | 0 <= k < |r|
      ensures r[k] == s[|s| - |r| + k]
    {
      assert r[k] == t[|t| - |r| + k];
    }
  }

  /**
   * cleanFolderName: backslashes become slashes, and the last `/`-separated
   * part is returned.
   */
  function CleanFolderName(folderName: string): (name: string)
    ensures LastSegmentOf(name, folderName, {'/', '\\'})
    ensures (forall k :: 0 <= k < |folderName| ==> folderName[k] !in {'/', '\\'}) ==> name == folderName
  {
    var slashed := ReplaceAllChar(folderName, '\\', '/');
    var parts := Split(slashed, "/");
    SplitLastChar(slashed, '/');
    SlashedLastSegment(parts[|parts| - 1], folderName);
    parts[|parts| - 1]
  }

  /**
   * The playlist-name rule written inline twice in the event loop: the last
   * part of the event path split on `\`.
   */
  function PlaylistName(eventName: string): (name: string)
    ensures LastSegmentOf(name, eventName, {'\\'})
    ensures '\\' !in eventName ==> name == eventName
  {
    var parts := Split(eventName, "\\");
    SplitLastChar(eventName, '\\');
    parts[|parts| - 1]
  }

  /** A last segment holds none of the separators. */
  lemma LastSegmentHasNoSeparator(r: string, s: string, seps: set<char>)
    requires LastSegmentOf(r, s, seps)
    ensures forall k :: 0 <= k < |r| ==> r[k] !in seps
  {
    forall k | 0 <= k < |r|
      ensures r[k] !in seps
    {
      assert r[k] == s[|s| - |r| + k];
    }
  }

  /** Cleaning a folder name twice gives the same result as once. */
  lemma {:induction false} CleanFolderNameIdempotent(folderName: string)
    ensures CleanFolderName(CleanFolderName(folderName)) == CleanFolderName(folderName)
  {
    var name := CleanFolderName(folderName);
    LastSegmentHasNoSeparator(name, folderName, {'/', '\\'});
  }

  /** The title is characterised by being a prefix that ends at the first delimiter. */
  lemma TitleUnique(fileName: string, delimiter: string, t: string)
    requires delimiter != []
    requires t <= fileName && FreeBefore(fileName, delimiter, |t|)
    requires t != fileName ==> OccursAt(fileName, delimiter, |t|)
    requires t == fileName ==> Free(fileName, delimiter)
    ensures GetTitleFromFileName(fileName, delimiter) == t
  {
    var title := GetTitleFromFileName(fileName, delimiter);
    if |t| < |title| {
      assert false;
    }
    if |title| < |t| {
      assert false;
    }
  }

  /**
   * The title is taken from the whole event path: a directory part free of
   * dots is kept in front of the file's own title.
   */
  lemma {:induction false} TitleKeepsDirectory(dir: string, name: string)
    requires '.' !in dir
    ensures GetTitleFromFileName(dir + name, ".") == dir + GetTitleFromFileName(name, ".")
  {
    var path := dir + name;
    var t := dir + GetTitleFromFileName(name, ".");
    OccursAtChar(path, '.');
    OccursAtChar(name, '.');
    forall j: nat | j < |t|
      ensures !OccursAt(path, ".", j)
    {
      if j >= |dir| {
        assert path[j] == name[j - |dir|];
      }
    }
    if t == path {
      forall j: nat | j <= |path|
        ensures !OccursAt(path, ".", j)
      {
        if |dir| <= j < |path| {
          assert path[j] == name[j - |dir|];
        }
      }
    } else {
      assert path[|t|] == name[|t| - |dir|];
    }
    TitleUnique(path, ".", t);
  }

  /** A dot in the directory part cuts the title inside the directory part. */
  lemma {:induction false} TitleStopsAtDottedDirectory(dir: string, name: string)
    requires '.' in dir
    ensures |GetTitleFromFileName(dir + name, ".")| < |dir|
  {
    var path := dir + name;
    var k :| 0 <= k < |dir| && dir[k] == '.';
    OccursAtChar(path, '.');
    assert OccursAt(path, ".", k);
  }

  /** The title is the text before the first dot: "movie.part1.mkv" gives "movie". */
  lemma TitleBeforeFirstDot(head: string, rest: string)
    requires '.' !in head
    ensures GetTitleFromFileName(head + "." + rest, ".") == head
  {
    var path := head + "." + rest;
    OccursAtChar(path, '.');
    forall j: nat | j < |head|
      ensures !OccursAt(path, ".", j)
    {
      assert path[j] == head[j];
    }
    assert path[|head|] == '.';
    TitleUnique(path, ".", head);
  }

  /**
   * The playlist name of a child path `parent\name` is `name`, whatever the
   * parent holds: "C:\videos\Trip" gives "Trip", and a file
   * "C:\videos\Trip\clip1.mov" gives "clip1.mov", not its folder's name.
   */
  lemma PlaylistNameOfChild(parent: string, name: string)
    requires '\\' !in name
    ensures PlaylistName(parent + "\\" + name) == name
  {
    var path := parent + "\\" + name;
    assert path[|parent| + 1..] == name;
    forall k | |path| - |name| <= k < |path|
      ensures path[k] !in {'\\'}
    {
      assert path[k] == name[k - |parent| - 1];
    }
    assert LastSegmentOf(name, path, {'\\'});
    LastSegmentUnique(PlaylistName(path), name, path, {'\\'});
  }

  /** `cleanFolderName` of `parent/name` or `parent\name` is `name`. */
  lemma CleanFolderNameOfChild(parent: string, sep: char, name: string)
    requires sep in {'/', '\\'}
    requires '/' !in name && '\\' !in name
    ensures CleanFolderName(parent + [sep] + name) == name
  {
    var path := parent + [sep] + name;
    assert path[|parent| + 1..] == name;
    forall k | |path| - |name| <= k < |path|
      ensures path[k] !in {'/', '\\'}
    {
      assert path[k] == name[k - |parent| - 1];
    }
    assert LastSegmentOf(name, path, {'/', '\\'});
    LastSegmentUnique(CleanFolderName(path), name, path, {'/', '\\'});
  }
}
