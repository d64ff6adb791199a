/**
 * addDirToWatcher of watcher/folder_monit.go: filepath.Walk over a
 * directory tree, registering every directory with the fsnotify watcher and
 * stopping at the first error. The tree, and which registrations fail, are
 * inputs.
 */
module Walk {
  import opened Wrappers

  /**
   * A directory tree as filepath.Walk finds it, children in walk order.
   * `File` is any entry os.Lstat does not report as a directory, a symbolic
   * link to a directory included. `Unreadable` is an entry whose Lstat fails
   * or a directory whose entries cannot be read: Walk hands the callback an
   * error for it.
   */
  datatype FsTree =
    | File(path: string)
    | Dir(path: string, children: seq<FsTree>)
    | Unreadable(path: string)

  /** What the walk callback is given for a path: directory info, file info, or an error. */
  datatype Info = DirInfo | FileInfo | WalkErr

  datatype Visit = Visit(path: string, info: Info)

  /** The error addDirToWatcher returns. */
  datatype WalkError = WalkFailed(path: string) | AddFailed(path: string)

  /**
   * The callback calls of filepath.Walk over `t`, in order (pre-order): the
   * root comes first, as a directory exactly when it is one.
   */
  function Visits(t: FsTree): (vs: seq<Visit>)
    ensures |vs| >= 1 && vs[0].path == t.path
    ensures vs[0].info == DirInfo <==> t.Dir?
    decreases t
  {
    match t
    case File(p) => [Visit(p, FileInfo)]
    case Dir(p, children) => [Visit(p, DirInfo)] + VisitsAll(children)
    case Unreadable(p) => [Visit(p, WalkErr)]
  }

  /** The walk of a directory's entries, one after another: at least one visit per entry. */
  function VisitsAll(ts: seq<FsTree>): (vs: seq<Visit>)
    ensures |vs| >= |ts|
    decreases ts
  {
    if ts == [] then [] else Visits(ts[0]) + VisitsAll(ts[1..])
  }

  /**
   * The walk of a directory's entries is the walk of each entry in turn:
   * entry `i` is walked whole, after the entries before it and before those
   * after it.
   */
  lemma {:induction false} VisitsAllSplit(ts: seq<FsTree>, i: nat)
    requires i < |ts|
    ensures VisitsAll(ts) == VisitsAll(ts[..i]) + Visits(ts[i]) + VisitsAll(ts[i + 1..])
    decreases i
  {
    if i == 0 {
      assert ts[..0] == [];
    } else {
      var tail := ts[1..];
      VisitsAllSplit(tail, i - 1);
      assert ts[..i][1..] == tail[..i - 1];
      assert tail[i..] == ts[i + 1..];
    }
  }

  /** Every entry of a directory is visited, with the visit of its own root. */
  lemma VisitsEachEntry(ts: seq<FsTree>, i: nat)
    requires i < |ts|
    ensures exists k :: 0 <= k < |VisitsAll(ts)| && VisitsAll(ts)[k] == Visits(ts[i])[0]
  {
    VisitsAllSplit(ts, i);
    var k := |VisitsAll(ts[..i])|;
    assert VisitsAll(ts)[k] == Visits(ts[i])[0];
  }

  /** The paths of the directories of `t`, the root included. */
  function DirPaths(t: FsTree): set<string>
    decreases t
  {
    match t
    case File(_) => {}
    case Dir(p, children) => {p} + DirPathsAll(children)
    case Unreadable(_) => {}
  }

  function DirPathsAll(ts: seq<FsTree>): set<string>
    decreases ts
  {
    if ts == [] then {} else DirPaths(ts[0]) + DirPathsAll(ts[1..])
  }

  /** The paths of the regular files of `t`. */
  function FilePaths(t: FsTree): set<string>
    decreases t
  {
    match t
    case File(p) => {p}
    case Dir(_, children) => FilePathsAll(children)
    case Unreadable(_) => {}
  }

  function FilePathsAll(ts: seq<FsTree>): set<string>
    decreases ts
  {
    if ts == [] then {} else FilePaths(ts[0]) + FilePathsAll(ts[1..])
  }

  /** The directory paths among the visits. */
  function DirsIn(vs: seq<Visit>): set<string> {
    if vs == [] then {}
    else (if vs[0].info == DirInfo then {vs[0].path} else {}) + DirsIn(vs[1..])
  }

  /** The callback returns an error for this visit: a walk error, or a failing watcher.Add. */
  predicate Fails(v: Visit, addFails: set<string>) {
    v.info == WalkErr || (v.info == DirInfo && v.path in addFails)
  }

  function ErrorOf(v: Visit): WalkError {
    if v.info == WalkErr then WalkFailed(v.path) else AddFailed(v.path)
  }

  /** The position of the first visit whose callback returns an error. */
  function FirstFailure(vs: seq<Visit>, addFails: set<string>): (r: Option<nat>)
    ensures r.Some? ==> r.value < |vs| && Fails(vs[r.value], addFails)
    ensures r.Some? ==> forall j :: 0 <= j < r.value ==> !Fails(vs[j], addFails)
    ensures r.None? <==> forall j :: 0 <= j < |vs| ==> !Fails(vs[j], addFails)
  {
    if vs == [] then None
    else if Fails(vs[0], addFails) then Some(0)
    else
      match FirstFailure(vs[1..], addFails)
      case None => None
      case Some(k) => Some(k + 1)
  }

  /** What addDirToWatcher leaves behind: the paths it registered and the error it returned. */
  datatype Registration = Registration(added: set<string>, err: Option<WalkError>)

  /**
   * addDirToWatcher over the visits `vs`: only visited directories are
   * registered, all of them when no callback fails; otherwise the error is
   * that of a failing visit.
   */
  function Register(vs: seq<Visit>, addFails: set<string>): (r: Registration)
    ensures r.added <= DirsIn(vs)
    ensures r.err.None? ==> r.added == DirsIn(vs)
    ensures r.err.Some? <==> exists j :: 0 <= j < |vs| && Fails(vs[j], addFails)
    ensures r.err.Some? ==> exists j :: 0 <= j < |vs| && Fails(vs[j], addFails) && r.err.value == ErrorOf(vs[j])
  {
    match FirstFailure(vs, addFails)
    case None => Registration(DirsIn(vs), None)
    case Some(k) =>
      assert vs == vs[..k] + vs[k..];
      DirsInAppend(vs[..k], vs[k..]);
      Registration(DirsIn(vs[..k]), Some(ErrorOf(vs[k])))
  }

  /**
   * What filepath.Walk finds at the path it is given, by os.Lstat, which
   * does not follow symbolic links: a directory and its entries, anything
   * else (a regular file, or a link even to a directory), or a path it
   * cannot stat or a directory it cannot list.
   */
  datatype Found = Entries(children: seq<FsTree>) | NotADirectory | CannotRead

  /** The tree filepath.Walk walks at `path`, given what it finds there. */
  function TreeAt(path: string, found: Found): (t: FsTree)
    ensures t.path == path
    ensures t.Dir? <==> found.Entries?
    ensures t.File? <==> found.NotADirectory?
    ensures t.Dir? ==> t.children == found.children
  {
    match found
    case Entries(children) => Dir(path, children)
    case NotADirectory => File(path)
    case CannotRead => Unreadable(path)
  }

  /** The fsnotify watcher: the set of watched paths. */
  class Watcher {
    var watches: set<string>

    constructor ()
      ensures watches == {}
    {
      watches := {};
    }

    /** watcher.Add: on success the path is watched; on failure nothing changes. */
    method Add(path: string, ok: bool) returns (err: Option<WalkError>)
      modifies this
      ensures ok ==> watches == old(watches) + {path} && err == None
      ensures !ok ==> watches == old(watches) && err == Some(AddFailed(path))
    {
      if ok {
        watches := watches + {path};
        err := None;
      } else {
        err := Some(AddFailed(path));
      }
    }
  }

  lemma {:induction false} DirsInAppend(a: seq<Visit>, b: seq<Visit>)
    ensures DirsIn(a + b) == DirsIn(a) + DirsIn(b)
  {
    if a != [] {
      assert (a + b)[1..] == a[1..] + b;
      DirsInAppend(a[1..], b);
    } else {
      assert a + b == b;
    }
  }

  /**
   * addDirToWatcher: walk the tree and add each directory to the watcher,
   * returning the first error of the walk or of watcher.Add.
   */
  method AddDirToWatcher(root: FsTree, watcher: Watcher, addFails: set<string>) returns (err: Option<WalkError>)
    modifies watcher
    ensures watcher.watches == old(watcher.watches) + Register(Visits(root), addFails).added
    ensures err == Register(Visits(root), addFails).err
  {
    var vs := Visits(root);
    var i := 0;
    while i < |vs|
      invariant 0 <= i <= |vs|
      invariant forall j :: 0 <= j < i ==> !Fails(vs[j], addFails)
      invariant watcher.watches == old(watcher.watches) + DirsIn(vs[..i])
    {
      var v := vs[i];
      if v.info == WalkErr {
        assert FirstFailure(vs, addFails) == Some(i);
        return Some(WalkFailed(v.path));
      }
      assert vs[..i + 1] == vs[..i] + [v];
      DirsInAppend(vs[..i], [v]);
      if v.info == DirInfo {
        err := watcher.Add(v.path, v.path !in addFails);
        if err.Some? {
          assert FirstFailure(vs, addFails) == Some(i);
          return;
        }
      }
      i := i + 1;
    }
    assert vs[..i] == vs;
    err := None;
  }

  lemma {:induction false} DirsInVisits(t: FsTree)
    ensures DirsIn(Visits(t)) == DirPaths(t)
    decreases t
  {
    match t
    case File(p) =>
    case Unreadable(p) =>
    case Dir(p, children) =>
      DirsInAppend([Visit(p, DirInfo)], VisitsAll(children));
      DirsInVisitsAll(children);
  }

  lemma {:induction false} DirsInVisitsAll(ts: seq<FsTree>)
    ensures DirsIn(VisitsAll(ts)) == DirPathsAll(ts)
    decreases ts
  {
    if ts != [] {
      DirsInAppend(Visits(ts[0]), VisitsAll(ts[1..]));
      DirsInVisits(ts[0]);
      DirsInVisitsAll(ts[1..]);
    }
  }

  /**
   * The walk registers only directories; when it returns no error it has
   * registered every directory of the tree, the root included.
   */
  lemma {:induction false} RegisterTree(t: FsTree, addFails: set<string>)
    ensures Register(Visits(t), addFails).added <= DirPaths(t)
    ensures Register(Visits(t), addFails).added !! (FilePaths(t) - DirPaths(t))
    ensures Register(Visits(t), addFails).err.None? ==> Register(Visits(t), addFails).added == DirPaths(t)
    ensures Register(Visits(t), addFails).err.None? && t.Dir? ==> t.path in Register(Visits(t), addFails).added
  {
    var vs := Visits(t);
    DirsInVisits(t);
    match FirstFailure(vs, addFails)
    case None =>
    case Some(k) =>
      assert vs == vs[..k] + vs[k..];
      DirsInAppend(vs[..k], vs[k..]);
  }

  /**
   * The walk stops at the first failing visit and reports its error; the
   * directories visited before it stay registered.
   */
  lemma RegisterStopsAtFirstError(vs: seq<Visit>, addFails: set<string>)
    ensures Register(vs, addFails).err.None? <==> forall j :: 0 <= j < |vs| ==> !Fails(vs[j], addFails)
    ensures Register(vs, addFails).err.Some? ==>
              exists k :: 0 <= k < |vs| && Fails(vs[k], addFails)
                          && (forall j :: 0 <= j < k ==> !Fails(vs[j], addFails))
                          && Register(vs, addFails).err == Some(ErrorOf(vs[k]))
                          && Register(vs, addFails).added == DirsIn(vs[..k])
  {
  }

  /**
   * The walk at `path` registers `path` itself exactly when it is a
   * directory whose entries can be read and whose watcher.Add succeeds. A
   * path that is not a directory registers nothing and is no error; a path
   * that cannot be read, or a directory whose watcher.Add fails, registers
   * nothing and returns that path's error.
   */
  lemma {:induction false} RegisterRoot(path: string, found: Found, addFails: set<string>)
    ensures var reg := Register(Visits(TreeAt(path, found)), addFails);
      path in reg.added <==> found.Entries? && path !in addFails
    ensures found.NotADirectory? ==> Register(Visits(TreeAt(path, found)), addFails) == Registration({}, None)
    ensures found.CannotRead? ==> Register(Visits(TreeAt(path, found)), addFails) == Registration({}, Some(WalkFailed(path)))
    ensures found.Entries? && path in addFails ==>
              Register(Visits(TreeAt(path, found)), addFails) == Registration({}, Some(AddFailed(path)))
  {
    var vs := Visits(TreeAt(path, found));
    if found.NotADirectory? {
      assert vs == [Visit(path, FileInfo)];
      assert FirstFailure(vs, addFails) == None;
      assert DirsIn(vs[1..]) == {};
    } else if found.CannotRead? || path in addFails {
      assert Fails(vs[0], addFails);
      assert FirstFailure(vs, addFails) == Some(0);
      assert vs[..0] == [];
    } else {
      assert !Fails(vs[0], addFails) && vs[0] == Visit(path, DirInfo);
      match FirstFailure(vs, addFails)
      case None =>
        assert vs == [vs[0]] + vs[1..];
        DirsInAppend([vs[0]], vs[1..]);
      case Some(k) =>
        assert vs[..k] == [vs[0]] + vs[1..k];
        DirsInAppend([vs[0]], vs[1..k]);
    }
  }
}
