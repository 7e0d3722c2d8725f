/** The Desktop as the placement engine sees it: regular files addressed by
    (folder, name), and the category folders directly under the Desktop. */
module Filesystem {
  import opened Text
  import opened Parser

  /** A directory: the Desktop itself or one of its sub-folders. */
  datatype Dir = Root | Folder(name: string)

  /** The location of a file: its parent directory and its final name. */
  datatype Loc = Loc(dir: Dir, name: string)

  /** A regular file: an identity that travels with it, and its contents. */
  datatype Entry = Entry(id: nat, data: FileData)

  /** The whole Desktop: every regular file by location, and the sub-folders. */
  datatype DiskState = DiskState(files: map<Loc, Entry>, folders: set<string>)

  /** Files live only in the Desktop or in an existing sub-folder, and no
      name is both a folder and a file of the Desktop. */
  predicate WellFormed(s: DiskState)
  {
    && (forall l :: l in s.files && l.dir.Folder? ==> l.dir.name in s.folders)
    && (forall n :: n in s.folders ==> Loc(Root, n) !in s.files)
  }

  /** `Path.exists()` for a location: a regular file, or a folder of the Desktop. */
  predicate LocExists(s: DiskState, l: Loc)
  {
    l in s.files || (l.dir == Root && l.name in s.folders)
  }

  /** `Path.exists()` for a directory path: the Desktop, a folder, or a file
      of the Desktop bearing that name. */
  predicate DirPathExists(s: DiskState, d: Dir)
  {
    d == Root || d.name in s.folders || Loc(Root, d.name) in s.files
  }

  /** The path names an existing directory. */
  predicate IsDir(s: DiskState, d: Dir)
  {
    d == Root || d.name in s.folders
  }

  /** `mkdir(parents=True, exist_ok=True)` when the path does not exist. */
  function EnsureDir(s: DiskState, d: Dir): (r: DiskState)
    ensures r.files == s.files
    ensures IsDir(r, d) || Loc(Root, d.name) in s.files
    ensures DirPathExists(s, d) ==> r == s
  {
    if DirPathExists(s, d) then s else s.(folders := s.folders + {d.name})
  }

  /** `shutil.move` of a file to a location that does not exist yet. */
  function Relocate(s: DiskState, src: Loc, dst: Loc): DiskState
    requires src in s.files
  {
    s.(files := (s.files - {src})[dst := s.files[src]])
  }

  /** A move to a free location keeps every file: as many files as before,
      holding the same entries. */
  lemma RelocateKeepsEntries(s: DiskState, src: Loc, dst: Loc)
    requires src in s.files && dst !in s.files
    ensures |Relocate(s, src, dst).files| == |s.files|
    ensures Relocate(s, src, dst).files.Values == s.files.Values
  {
    var m, m' := s.files, Relocate(s, src, dst).files;
    assert m'.Keys == m.Keys - {src} + {dst};
    assert |m'.Keys| == |m.Keys - {src}| + 1;
    forall e | e in m.Values
      ensures e in m'.Values
    {
      var l :| l in m && m[l] == e;
      if l == src {
        assert m'[dst] == e;
      } else {
        assert l in m' && m'[l] == e;
      }
    }
    forall e | e in m'.Values
      ensures e in m.Values
    {
      var l :| l in m' && m'[l] == e;
      if l == dst {
        assert m[src] == e;
      } else {
        assert l in m && m[l] == e;
      }
    }
  }

  /** `str(path)` for a directory under the Desktop path `desktop`. */
  function DirText(desktop: string, d: Dir): string
  {
    if d.Root? then desktop else desktop + "/" + d.name
  }

  /** `str(path)` for a file location under the Desktop path `desktop`. */
  function LocText(desktop: string, l: Loc): string
  {
    DirText(desktop, l.dir) + "/" + l.name
  }

  /** The names of the regular files directly in the Desktop whose name does
      not start with a dot: what `process_all_files` lists. */
  function RootFileNames(s: DiskState): (r: set<string>)
    ensures forall n :: n in r <==> Loc(Root, n) in s.files && !StartsWithDot(n)
  {
    set l | l in s.files && l.dir == Root && !StartsWithDot(l.name) :: l.name
  }

  /** Creating a folder when needed keeps the Desktop well formed, and doing
      it twice is doing it once. */
  lemma EnsureDirPreserves(s: DiskState, d: Dir)
    requires WellFormed(s)
    ensures WellFormed(EnsureDir(s, d))
    ensures EnsureDir(EnsureDir(s, d), d) == EnsureDir(s, d)
  {
  }

  /** The Desktop on disk, changed in place by `mkdir` and `shutil.move`. */
  class Disk {
    var files: map<Loc, Entry>
    var folders: set<string>

    function State(): DiskState
      reads this
    {
      DiskState(files, folders)
    }

    constructor(files0: map<Loc, Entry>, folders0: set<string>)
      ensures State() == DiskState(files0, folders0)
    {
      files := files0;
      folders := folders0;
    }

    /** `mkdir` of a folder of the Desktop. */
    method Mkdir(name: string)
      modifies this
      ensures State() == old(State()).(folders := old(folders) + {name})
    {
      folders := folders + {name};
    }

    /** `shutil.move` of a regular file to a fresh location. */
    method Rename(src: Loc, dst: Loc)
      requires src in files
      modifies this
      ensures State() == Relocate(old(State()), src, dst)
    {
      var entry := files[src];
      files := (files - {src})[dst := entry];
    }
  }
}
