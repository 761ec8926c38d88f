/**
 * `get_django_project_structure`: every path `git ls-files` reports is filed
 * into a nested dictionary, one level per directory, with the files of a
 * directory listed under its `__files__` key.
 *
 * The nested dictionary is represented flat. A node is named by the sequence
 * of directory names leading to it from the root (the root is `[]`); `dirs`
 * holds every node that exists and `files` maps a node to its `__files__`
 * list, for the nodes that have that key. As long as no directory is itself
 * called `__files__`, this is the same information as the nested dictionary.
 *
 * `git ls-files` is reduced to its outcome (the listed paths, or `None` when
 * it fails or raises) and reading a file to a function from the path to its
 * content (or `None` when opening it raises).
 */
module DjangoStructure {
  import opened Common
  import opened Text

  /** One `{'name': ..., 'content': ...}` entry of a `__files__` list. */
  datatype FileEntry = FileEntry(name: string, content: string)

  type Reader = string -> Option<string>

  /** `get_git_tracked_files`: the lines `git ls-files` printed, or `[]` when it failed. */
  function GitTrackedFiles(listing: Option<seq<string>>): seq<string>
  {
    listing.GetOr([])
  }

  /** The directories a path runs through: every segment but the last. */
  function Parent(p: string): seq<string> {
    var parts := Split(p, '/');
    parts[..|parts| - 1]
  }

  /** The entry reading `p` adds: none when opening it fails. */
  function EntryList(p: string, read: Reader): seq<FileEntry> {
    match read(p)
    case None => []
    case Some(content) => [FileEntry(BaseName(p), content)]
  }

  /** A node's `__files__` list, empty when the key is absent. */
  function FilesAt(files: map<seq<string>, seq<FileEntry>>, d: seq<string>): seq<FileEntry> {
    if d in files then files[d] else []
  }

  /** The nodes after filing `p`: the nodes on the way to its directory are created where missing. */
  function AddedDirs(dirs: set<seq<string>>, p: string): set<seq<string>> {
    dirs + set j | 0 < j <= |Parent(p)| :: Parent(p)[..j]
  }

  /** The `__files__` lists after filing `p`: its directory gets the key, and the entry if the read succeeds. */
  function AddedFiles(files: map<seq<string>, seq<FileEntry>>, p: string, read: Reader): map<seq<string>, seq<FileEntry>> {
    files[Parent(p) := FilesAt(files, Parent(p)) + EntryList(p, read)]
  }

  /** A path is its directories and its name joined with `/`, so those two determine it. */
  lemma PathDetermined(p: string, q: string)
    requires Parent(p) == Parent(q) && BaseName(p) == BaseName(q)
    ensures p == q
  {
    var ps := Split(p, '/');
    var qs := Split(q, '/');
    assert ps == Parent(p) + [BaseName(p)];
    assert qs == Parent(q) + [BaseName(q)];
    JoinSplit(p, '/');
    JoinSplit(q, '/');
  }

  /** The flat form is a tree: the root exists, every node's parent exists, and only nodes hold files. */
  predicate IsTree(dirs: set<seq<string>>, files: map<seq<string>, seq<FileEntry>>) {
    && [] in dirs
    && (forall d :: d in dirs && d != [] ==> d[..|d| - 1] in dirs)
    && files.Keys <= dirs
  }

  /** The nodes are the root and every directory on the way to one of `paths`. */
  ghost predicate NodesFrom(dirs: set<seq<string>>, paths: set<string>) {
    forall d :: d in dirs <==> d == [] || exists p :: p in paths && d <= Parent(p)
  }

  /** Exactly the directories that directly hold one of `paths` have a `__files__` list. */
  ghost predicate ListsFrom(files: map<seq<string>, seq<FileEntry>>, paths: set<string>) {
    forall d :: d in files <==> exists p :: p in paths && Parent(p) == d
  }

  /** A directory's list holds exactly the names and contents of its paths that could be read. */
  ghost predicate EntriesFrom(files: map<seq<string>, seq<FileEntry>>, paths: set<string>, read: Reader) {
    forall d, e :: d in files ==>
      (e in files[d] <==> exists p :: p in paths && Parent(p) == d && EntryList(p, read) == [e])
  }

  /** No `__files__` list names a file twice. */
  predicate NamesDistinct(files: map<seq<string>, seq<FileEntry>>) {
    forall d, i, j :: d in files && 0 <= i < j < |files[d]| ==> files[d][i].name != files[d][j].name
  }

  /**
   * The structure built from the set of paths `paths`, in whatever order the
   * set is visited.
   */
  ghost predicate Describes(dirs: set<seq<string>>, files: map<seq<string>, seq<FileEntry>>,
                            paths: set<string>, read: Reader) {
    && NodesFrom(dirs, paths)
    && ListsFrom(files, paths)
    && EntriesFrom(files, paths, read)
    && NamesDistinct(files)
  }

  /** Before any path is filed the structure is the empty dictionary. */
  lemma DescribesNothing(read: Reader)
    ensures Describes({[]}, map[], {}, read)
  {
  }

  /** With no paths (as when `git ls-files` fails) the only structure is the empty dictionary. */
  lemma DescribesOnlyEmpty(dirs: set<seq<string>>, files: map<seq<string>, seq<FileEntry>>, read: Reader)
    requires Describes(dirs, files, {}, read)
    ensures dirs == {[]} && files == map[]
  {
    assert forall d :: d in dirs <==> d == [];
    assert files.Keys == {};
  }

  /** Whatever the paths, what they describe is a tree. */
  lemma DescribedIsTree(dirs: set<seq<string>>, files: map<seq<string>, seq<FileEntry>>,
                        paths: set<string>, read: Reader)
    requires Describes(dirs, files, paths, read)
    ensures IsTree(dirs, files)
  {
    forall d | d in dirs && d != []
      ensures d[..|d| - 1] in dirs
    {
      var p :| p in paths && d <= Parent(p);
      assert d[..|d| - 1] <= Parent(p);
    }
    forall d | d in files
      ensures d in dirs
    {
      var p :| p in paths && Parent(p) == d;
      assert d <= Parent(p);
    }
  }

  /** Filing `p` creates exactly the missing directories on its way. */
  lemma NodesStep(dirs: set<seq<string>>, paths: set<string>, p: string)
    requires NodesFrom(dirs, paths)
    ensures NodesFrom(AddedDirs(dirs, p), paths + {p})
  {
    var newDirs := AddedDirs(dirs, p);
    var newPaths := paths + {p};
    var par := Parent(p);
    forall d: seq<string>
      ensures d in newDirs <==> d == [] || exists q :: q in newPaths && d <= Parent(q)
    {
      if d in newDirs && d !in dirs {
        var j :| 0 < j <= |par| && d == par[..j];
        assert d <= Parent(p);
      }
      if d != [] && d !in dirs && (exists q :: q in newPaths && d <= Parent(q)) {
        var q :| q in newPaths && d <= Parent(q);
        assert q == p;
        assert d == par[..|d|];
      }
    }
  }

  /** Filing `p` gives its directory a list, and no other directory. */
  lemma ListsStep(files: map<seq<string>, seq<FileEntry>>, paths: set<string>, p: string, read: Reader)
    requires ListsFrom(files, paths)
    ensures ListsFrom(AddedFiles(files, p, read), paths + {p})
  {
    var newPaths := paths + {p};
    forall d: seq<string>
      ensures d in AddedFiles(files, p, read) <==> exists q :: q in newPaths && Parent(q) == d
    {
      if d == Parent(p) {
        assert p in newPaths && Parent(p) == d;
      }
    }
  }

  /** Filing `p` adds its entry, if it could be read, to its directory's list and nothing else. */
  lemma EntriesStep(files: map<seq<string>, seq<FileEntry>>, paths: set<string>, p: string, read: Reader)
    requires ListsFrom(files, paths)
    requires EntriesFrom(files, paths, read)
    ensures EntriesFrom(AddedFiles(files, p, read), paths + {p}, read)
  {
    var newFiles: map<seq<string>, seq<FileEntry>> := AddedFiles(files, p, read);
    var newPaths := paths + {p};
    var par := Parent(p);
    forall d: seq<string>, e: FileEntry | d in newFiles
      ensures e in newFiles[d] <==> exists q :: q in newPaths && Parent(q) == d && EntryList(q, read) == [e]
    {
      if d == par {
        if e in newFiles[d] && e !in FilesAt(files, d) {
          assert e in EntryList(p, read);
          assert EntryList(p, read) == [e];
        }
        if exists q :: q in newPaths && Parent(q) == d && EntryList(q, read) == [e] {
          var q :| q in newPaths && Parent(q) == d && EntryList(q, read) == [e];
          if q == p {
            assert e in newFiles[d];
          } else {
            assert d in files;
            assert e in files[d];
          }
        }
      }
    }
  }

  /** The name `p` adds is new to its directory, since a path is determined by its directory and name. */
  lemma NamesStep(files: map<seq<string>, seq<FileEntry>>, paths: set<string>, p: string, read: Reader)
    requires EntriesFrom(files, paths, read)
    requires NamesDistinct(files)
    requires p !in paths
    ensures NamesDistinct(AddedFiles(files, p, read))
  {
    var newFiles: map<seq<string>, seq<FileEntry>> := AddedFiles(files, p, read);
    var par := Parent(p);
    forall d: seq<string>, i: int, j: int | d in newFiles && 0 <= i < j < |newFiles[d]|
      ensures newFiles[d][i].name != newFiles[d][j].name
    {
      if d == par && j == |newFiles[d]| - 1 && EntryList(p, read) != [] {
        var earlier := FilesAt(files, d);
        assert j == |earlier|;
        var e := newFiles[d][i];
        assert e == earlier[i];
        assert d in files;
        assert e in files[d];
        var q :| q in paths && Parent(q) == d && EntryList(q, read) == [e];
        if e.name == newFiles[d][j].name {
          assert newFiles[d][j] == EntryList(p, read)[0];
          assert BaseName(q) == BaseName(p);
          PathDetermined(p, q);
        }
      }
    }
  }

  /** Filing one more path keeps the description exact. */
  lemma DescribesStep(dirs: set<seq<string>>, files: map<seq<string>, seq<FileEntry>>,
                      paths: set<string>, p: string, read: Reader)
    requires Describes(dirs, files, paths, read)
    requires p !in paths
    ensures Describes(AddedDirs(dirs, p), AddedFiles(files, p, read), paths + {p}, read)
  {
    NodesStep(dirs, paths, p);
    ListsStep(files, paths, p, read);
    EntriesStep(files, paths, p, read);
    NamesStep(files, paths, p, read);
  }

  /**
   * In a described structure every listed path that could be read has exactly
   * one entry, carrying its name and content, in its directory's list.
   */
  lemma DescribedEntryUnique(dirs: set<seq<string>>, files: map<seq<string>, seq<FileEntry>>,
                             paths: set<string>, read: Reader, p: string)
    requires Describes(dirs, files, paths, read)
    requires p in paths && read(p).Some?
    ensures Parent(p) in files
    ensures exists i :: 0 <= i < |files[Parent(p)]| && files[Parent(p)][i] == FileEntry(BaseName(p), read(p).value)
    ensures forall i, j ::
              (0 <= i < |files[Parent(p)]| && 0 <= j < |files[Parent(p)]|
               && files[Parent(p)][i].name == BaseName(p) && files[Parent(p)][j].name == BaseName(p)) ==> i == j
  {
    var e := FileEntry(BaseName(p), read(p).value);
    assert EntryList(p, read) == [e];
    assert e in files[Parent(p)];
  }

  /** Filing a path keeps the flat form a tree: the directories on its way are created top-down. */
  lemma FilingKeepsTree(dirs: set<seq<string>>, files: map<seq<string>, seq<FileEntry>>, p: string, read: Reader)
    requires IsTree(dirs, files)
    ensures IsTree(AddedDirs(dirs, p), AddedFiles(files, p, read))
  {
    var par := Parent(p);
    var newDirs := AddedDirs(dirs, p);
    forall d | d in newDirs && d != []
      ensures d[..|d| - 1] in newDirs
    {
      if d !in dirs {
        var j :| 0 < j <= |par| && d == par[..j];
        if j > 1 {
          assert d[..|d| - 1] == par[..j - 1];
        }
      }
    }
    if par != [] {
      assert par == par[..|par|];
    }
  }

  /** Filing a path leaves every other directory's list alone and only extends its own. */
  lemma FilingKeepsExisting(files: map<seq<string>, seq<FileEntry>>, p: string, read: Reader)
    ensures forall d :: d in files && d != Parent(p) ==> d in AddedFiles(files, p, read) && AddedFiles(files, p, read)[d] == files[d]
    ensures Parent(p) in files ==> files[Parent(p)] <= AddedFiles(files, p, read)[Parent(p)]
    ensures |AddedFiles(files, p, read)[Parent(p)]| == |FilesAt(files, Parent(p))| + (if read(p).Some? then 1 else 0)
  {
  }

  /** The dictionary `get_django_project_structure` builds. */
  class ProjectStructure {
    /** The nodes of the nested dictionary, named by their path from the root. */
    var dirs: set<seq<string>>
    /** The `__files__` list of every node that has one. */
    var files: map<seq<string>, seq<FileEntry>>

    ghost predicate Valid()
      reads this
    {
      IsTree(dirs, files)
    }

    /** `project_structure = {}`. */
    constructor ()
      ensures dirs == {[]} && files == map[]
      ensures Valid()
    {
      dirs := {[]};
      files := map[];
    }

    /** One iteration of the outer loop: walks a cursor down to `p`'s directory, then records the file. */
    method AddPath(p: string, read: Reader)
      modifies this
      ensures dirs == AddedDirs(old(dirs), p)
      ensures files == AddedFiles(old(files), p, read)
      ensures old(Valid()) ==> Valid()
    {
      if Valid() {
        FilingKeepsTree(dirs, files, p, read);
      }
      var parts := Split(p, '/');
      ghost var par := Parent(p);
      var currentDir: seq<string> := [];
      for i := 0 to |parts| - 1
        invariant currentDir == par[..i]
        invariant dirs == old(dirs) + set j | 0 < j <= i :: par[..j]
        invariant files == old(files)
      {
        var part := parts[i];
        assert currentDir + [part] == par[..i + 1];
        if currentDir + [part] !in dirs {
          dirs := dirs + {currentDir + [part]};
        }
        currentDir := currentDir + [part];
        assert (set j | 0 < j <= i + 1 :: par[..j]) == (set j | 0 < j <= i :: par[..j]) + {par[..i + 1]};
      }
      assert currentDir == par;
      if currentDir !in files {
        files := files[currentDir := []];
      }
      assert files[currentDir] == FilesAt(old(files), par);
      var content := read(p);
      if content.Some? {
        files := files[currentDir := files[currentDir] + [FileEntry(parts[|parts| - 1], content.value)]];
        assert EntryList(p, read) == [FileEntry(parts[|parts| - 1], content.value)];
      } else {
        assert FilesAt(old(files), par) + EntryList(p, read) == files[par];
        assert files == files[par := files[par]];
      }
    }
  }

  /** Visiting one more element of a set moves it from the unvisited part to the visited one. */
  lemma VisitOne(all: set<string>, remaining: set<string>, p: string)
    requires p in remaining && remaining <= all
    ensures (all - remaining) + {p} == all - (remaining - {p})
  {
  }

  /**
   * `get_django_project_structure(root_dir)`, where `listing` is what
   * `git ls-files` reported and `read` reads a listed path. A path listed
   * twice is filed once.
   */
  method GetDjangoProjectStructure(listing: Option<seq<string>>, read: Reader) returns (s: ProjectStructure)
    requires forall p :: p in GitTrackedFiles(listing) ==> "__files__" !in Parent(p)
    ensures fresh(s)
    ensures s.Valid()
    ensures Describes(s.dirs, s.files, (set p | p in GitTrackedFiles(listing)), read)
    ensures listing.None? ==> s.dirs == {[]} && s.files == map[]
  {
    s := new ProjectStructure();
    var tracked := GitTrackedFiles(listing);
    var gitFiles := set p | p in tracked;
    var remaining := gitFiles;
    DescribesNothing(read);
    assert gitFiles - remaining == {};
    while remaining != {}
      invariant remaining <= gitFiles
      invariant Describes(s.dirs, s.files, gitFiles - remaining, read)
      decreases remaining
    {
      var p :| p in remaining;
      ghost var done := gitFiles - remaining;
      DescribesStep(s.dirs, s.files, done, p, read);
      s.AddPath(p, read);
      VisitOne(gitFiles, remaining, p);
      remaining := remaining - {p};
    }
    assert gitFiles - remaining == gitFiles;
    DescribedIsTree(s.dirs, s.files, gitFiles, read);
    if listing.None? {
      assert gitFiles == {};
      DescribesOnlyEmpty(s.dirs, s.files, read);
    }
  }
}
