// The file browser's listing of one directory and its initial selection.
// The directory read is an input: `None` when the directory cannot be read,
// otherwise its entries with their kind and file extension.

module ChildPaths {
  import opened Common
  import opened Sorting

  /** What the file system reports for an entry: a file, a directory that can
      be read, a directory that cannot, or anything else (a broken link). */
  datatype EntryKind = File | ReadableDir | UnreadableDir | Other

  datatype Entry = Entry(path: string, kind: EntryKind, extension: Option<string>)

  /** A listed child path. */
  datatype FileOrDirectory = FileOrDirectory(path: string, isFile: bool)

  /** Path order. All entries share the same parent directory, so comparing
      paths is comparing their names, character by character. */
  function PathLe(a: string, b: string): bool
  {
    if a == [] then true
    else if b == [] then false
    else if a[0] != b[0] then a[0] < b[0]
    else PathLe(a[1..], b[1..])
  }

  lemma {:induction false} PathLeTotal(a: string, b: string)
    ensures PathLe(a, b) || PathLe(b, a)
  {
    if a != [] && b != [] && a[0] == b[0] {
      PathLeTotal(a[1..], b[1..]);
    }
  }

  lemma {:induction false} PathLeTransitive(a: string, b: string, c: string)
    requires PathLe(a, b) && PathLe(b, c)
    ensures PathLe(a, c)
  {
    if a != [] && b != [] && c != [] && a[0] == b[0] && b[0] == c[0] {
      PathLeTransitive(a[1..], b[1..], c[1..]);
    }
  }

  lemma {:induction false} PathLeAntisymmetric(a: string, b: string)
    requires PathLe(a, b) && PathLe(b, a)
    ensures a == b
  {
    if a != [] && b != [] {
      PathLeAntisymmetric(a[1..], b[1..]);
      assert a == [a[0]] + a[1..] && b == [b[0]] + b[1..];
    }
  }

  lemma PathLeIsTotalPreorder()
    ensures TotalPreorder(PathLe)
  {
    forall a, b ensures PathLe(a, b) || PathLe(b, a) {
      PathLeTotal(a, b);
    }
    forall a, b, c | PathLe(a, b) && PathLe(b, c) ensures PathLe(a, c) {
      PathLeTransitive(a, b, c);
    }
  }

  /** A file whose extension is one of `extensions`. */
  predicate Allowed(e: Entry, extensions: seq<string>)
  {
    e.kind == File && e.extension.Some? && e.extension.value in extensions
  }

  /** Paths of the files whose extension is one of `extensions`, in listing order. */
  function FilePaths(entries: seq<Entry>, extensions: seq<string>): (r: seq<string>)
    ensures |r| <= |entries|
  {
    if entries == [] then []
    else
      var e := entries[|entries| - 1];
      var rest := FilePaths(entries[..|entries| - 1], extensions);
      if Allowed(e, extensions) then rest + [e.path] else rest
  }

  /** Paths of the readable directories, in listing order. */
  function FolderPaths(entries: seq<Entry>): (r: seq<string>)
    ensures |r| <= |entries|
  {
    if entries == [] then []
    else
      var e := entries[|entries| - 1];
      var rest := FolderPaths(entries[..|entries| - 1]);
      if e.kind == ReadableDir then rest + [e.path] else rest
  }

  function AsChildren(paths: seq<string>, isFile: bool): (r: seq<FileOrDirectory>)
    ensures |r| == |paths|
    ensures forall i :: 0 <= i < |r| ==> r[i] == FileOrDirectory(paths[i], isFile)
  {
    seq(|paths|, i requires 0 <= i < |paths| => FileOrDirectory(paths[i], isFile))
  }

  /** `get_paths_in_directory`: the sorted folders, then the sorted files with
      an allowed extension; nothing when the directory cannot be read. */
  function Listing(read: Option<seq<Entry>>, extensions: seq<string>): seq<FileOrDirectory>
  {
    match read
    case None => []
    case Some(entries) =>
      AsChildren(SortBy(FolderPaths(entries), PathLe), false)
        + AsChildren(SortBy(FilePaths(entries, extensions), PathLe), true)
  }

  function FolderCount(children: seq<FileOrDirectory>): nat
  {
    if children == [] then 0
    else FolderCount(children[..|children| - 1]) + if children[|children| - 1].isFile then 0 else 1
  }

  predicate AnyFile(children: seq<FileOrDirectory>)
  {
    exists i :: 0 <= i < |children| && children[i].isFile
  }

  /** The first index holding `path`, if any. */
  function FirstIndexOf(children: seq<FileOrDirectory>, path: string): (r: Option<nat>)
    ensures r.Some? ==> r.value < |children| && children[r.value].path == path
    ensures r.Some? ==> forall i :: 0 <= i < r.value ==> children[i].path != path
    ensures r.None? ==> forall i :: 0 <= i < |children| ==> children[i].path != path
  {
    if children == [] then None
    else if children[0].path == path then Some(0)
    else
      match FirstIndexOf(children[1..], path)
      case None => None
      case Some(i) => Some(i + 1)
  }

  /** The selection rule of `set`: the previous directory when there is one,
      otherwise the first file, or the first folder when there are no files. */
  function Selection(children: seq<FileOrDirectory>, previous: Option<string>): (r: Option<nat>)
    ensures r.Some? ==> r.value < |children|
  {
    match previous
    case Some(p) => FirstIndexOf(children, p)
    case None =>
      if children == [] then None
      else
        FolderCountBound(children);
        match (FolderCount(children) == 0, !AnyFile(children))
        case (true, true) => None
        case (true, false) => Some(0)
        case (false, true) => Some(0)
        case (false, false) => Some(FolderCount(children))
  }

  lemma {:induction false} FolderCountBound(children: seq<FileOrDirectory>)
    ensures FolderCount(children) <= |children|
    ensures AnyFile(children) ==> FolderCount(children) < |children|
    ensures FolderCount(children) == |children| ==> !AnyFile(children)
  {
    if children != [] {
      var init := children[..|children| - 1];
      FolderCountBound(init);
      if AnyFile(children) && !children[|children| - 1].isFile {
        var i :| 0 <= i < |children| && children[i].isFile;
        assert init[i].isFile;
      }
      if FolderCount(children) == |children| {
        assert !children[|children| - 1].isFile;
        forall i | 0 <= i < |children| ensures !children[i].isFile {
          if i < |init| { assert init[i] == children[i]; }
        }
      }
    }
  }

  lemma {:induction false} FolderCountAppend(a: seq<FileOrDirectory>, b: seq<FileOrDirectory>)
    ensures FolderCount(a + b) == FolderCount(a) + FolderCount(b)
  {
    if b != [] {
      assert (a + b)[..|a + b| - 1] == a + b[..|b| - 1];
      FolderCountAppend(a, b[..|b| - 1]);
    } else {
      assert a + b == a;
    }
  }

  lemma {:induction false} FolderCountUniform(paths: seq<string>, isFile: bool)
    ensures FolderCount(AsChildren(paths, isFile)) == if isFile then 0 else |paths|
  {
    if paths != [] {
      assert AsChildren(paths, isFile)[..|paths| - 1] == AsChildren(paths[..|paths| - 1], isFile);
      FolderCountUniform(paths[..|paths| - 1], isFile);
    }
  }

  /** Folders sorted then files sorted, as listed children. */
  lemma {:induction false} ConcatShape(folders: seq<string>, files: seq<string>)
    ensures var l := AsChildren(folders, false) + AsChildren(files, true);
      && |l| == |folders| + |files|
      && (forall i :: 0 <= i < |folders| ==> l[i] == FileOrDirectory(folders[i], false))
      && (forall i :: 0 <= i < |files| ==> l[|folders| + i] == FileOrDirectory(files[i], true))
      && FolderCount(l) == |folders|
  {
    FolderCountAppend(AsChildren(folders, false), AsChildren(files, true));
    FolderCountUniform(folders, false);
    FolderCountUniform(files, true);
  }

  /** The listing holds every folder, sorted, before every file, sorted. */
  lemma ListingShape(entries: seq<Entry>, extensions: seq<string>)
    ensures var l := Listing(Some(entries), extensions);
      var folders := SortBy(FolderPaths(entries), PathLe);
      var files := SortBy(FilePaths(entries, extensions), PathLe);
      && l == AsChildren(folders, false) + AsChildren(files, true)
      && multiset(folders) == multiset(FolderPaths(entries))
      && multiset(files) == multiset(FilePaths(entries, extensions))
      && SortedBy(folders, PathLe) && SortedBy(files, PathLe)
      && FolderCount(l) == |folders|
  {
    PathLeIsTotalPreorder();
    SortBySorted(FolderPaths(entries), PathLe);
    SortBySorted(FilePaths(entries, extensions), PathLe);
    ConcatShape(SortBy(FolderPaths(entries), PathLe), SortBy(FilePaths(entries, extensions), PathLe));
  }

  /** The paths listed as files are exactly the files with an allowed extension. */
  lemma {:induction false} FilePathsExactly(entries: seq<Entry>, extensions: seq<string>, p: string)
    ensures p in FilePaths(entries, extensions) <==>
      exists i :: 0 <= i < |entries| && entries[i].path == p && Allowed(entries[i], extensions)
  {
    if entries != [] {
      var init := entries[..|entries| - 1];
      FilePathsExactly(init, extensions, p);
      if p in FilePaths(init, extensions) {
        var i :| 0 <= i < |init| && init[i].path == p && Allowed(init[i], extensions);
        assert entries[i] == init[i];
      }
      if exists i :: 0 <= i < |entries| && entries[i].path == p && Allowed(entries[i], extensions) {
        var i :| 0 <= i < |entries| && entries[i].path == p && Allowed(entries[i], extensions);
        if i < |init| { assert init[i] == entries[i]; }
      }
    }
  }

  /** The paths listed as folders are exactly the readable directory entries. */
  lemma {:induction false} FolderPathsExactly(entries: seq<Entry>, p: string)
    ensures p in FolderPaths(entries) <==>
      exists i :: 0 <= i < |entries| && entries[i].path == p && entries[i].kind == ReadableDir
  {
    if entries != [] {
      var init := entries[..|entries| - 1];
      FolderPathsExactly(init, p);
      if p in FolderPaths(init) {
        var i :| 0 <= i < |init| && init[i].path == p && init[i].kind == ReadableDir;
        assert entries[i] == init[i];
      }
      if exists i :: 0 <= i < |entries| && entries[i].path == p && entries[i].kind == ReadableDir {
        var i :| 0 <= i < |entries| && entries[i].path == p && entries[i].kind == ReadableDir;
        if i < |init| { assert init[i] == entries[i]; }
      }
    }
  }

  /** Without a previous directory, a listing with files selects its first
      file, and one with only folders selects its first folder. */
  lemma SelectsFirstFile(children: seq<FileOrDirectory>, folders: seq<string>, files: seq<string>)
    requires children == AsChildren(folders, false) + AsChildren(files, true)
    ensures files != [] ==>
      && Selection(children, None) == Some(|folders|)
      && children[|folders|].isFile
      && (forall i :: 0 <= i < |folders| ==> !children[i].isFile)
    ensures files == [] && folders != [] ==> Selection(children, None) == Some(0)
    ensures files == [] && folders == [] ==> Selection(children, None).None?
  {
    ConcatShape(folders, files);
    if files != [] {
      assert children[|folders|].isFile;
    } else {
      assert !AnyFile(children) by {
        assert children == AsChildren(folders, false);
      }
    }
  }

  /** The file browser's child paths and the selected one. */
  class ChildPaths {
    var children: seq<FileOrDirectory>
    var selected: Option<nat>

    predicate Valid()
      reads this
    {
      selected.Some? ==> selected.value < |children|
    }

    constructor ()
      ensures children == [] && selected.None? && Valid()
    {
      children, selected := [], None;
    }

    /** `set`: lists the directory and chooses the selection. */
    method Set(read: Option<seq<Entry>>, extensions: seq<string>, previous: Option<string>)
      modifies this
      ensures children == Listing(read, extensions)
      ensures selected == Selection(children, previous)
      ensures Valid()
    {
      var listed := Listing(read, extensions);
      selected := Selection(listed, previous);
      children := listed;
    }
  }
}
