/**
 * `create_folder_structure`: the figure's directory under the base
 * directory (made with its ancestors), named after the figure with spaces turned into underscores,
 * and one sub-directory per platform. The filesystem is the set of
 * directories that exist.
 */
module FileManager {
  import opened PyStr
  import opened Paths

  /** `figure_name.replace(" ", "_")`. */
  function FolderName(figureName: string): (r: string)
    ensures |r| == |figureName|
    ensures ' ' !in r
    ensures forall i :: 0 <= i < |r| ==> r[i] == (if figureName[i] == ' ' then '_' else figureName[i])
  {
    ReplaceByChar(figureName, ' ', '_');
    Replace(figureName, ' ', "_")
  }

  /** The figure's directory under `baseDir`. */
  function FigureDir(baseDir: Path, figureName: string): Path {
    Join(baseDir, FolderName(figureName))
  }

  /** The directories one call leaves in place: the figure's directory with its ancestors, and one per platform. */
  function StructureDirs(baseDir: Path, figureName: string, platforms: seq<string>): set<Path> {
    Lineage(FigureDir(baseDir, figureName)) + set p | p in platforms :: Join(FigureDir(baseDir, figureName), p)
  }

  /** The directories that exist. */
  class FileSystem {
    var dirs: set<Path>

    constructor (dirs: set<Path>)
      ensures this.dirs == dirs
    {
      this.dirs := dirs;
    }

    /** `path.mkdir(exist_ok=True)`: afterwards the directory exists, whether or not it did before. */
    method MakeDir(path: Path)
      modifies this
      ensures dirs == old(dirs) + {path}
    {
      dirs := dirs + {path};
    }

    /** `path.mkdir(parents=True, exist_ok=True)`: afterwards the directory and all its ancestors exist. */
    method MakeDirs(path: Path)
      modifies this
      ensures dirs == old(dirs) + Lineage(path)
    {
      dirs := dirs + Lineage(path);
    }
  }

  /** `create_folder_structure`: returns the figure's directory, not a platform sub-directory. */
  method CreateFolderStructure(fs: FileSystem, baseDir: Path, figureName: string, platforms: seq<string>)
    returns (figureDir: Path)
    modifies fs
    ensures figureDir == FigureDir(baseDir, figureName)
    ensures fs.dirs == old(fs.dirs) + StructureDirs(baseDir, figureName, platforms)
  {
    figureDir := Join(baseDir, FolderName(figureName));
    fs.MakeDirs(figureDir);
    for i := 0 to |platforms|
      invariant fs.dirs == old(fs.dirs) + Lineage(figureDir) + set p | p in platforms[..i] :: Join(figureDir, p)
    {
      fs.MakeDir(Join(figureDir, platforms[i]));
      assert platforms[..i + 1] == platforms[..i] + [platforms[i]];
    }
    assert platforms[..|platforms|] == platforms;
  }

  /** After a call the figure's directory exists, and so does its sub-directory for every platform. */
  lemma StructureHoldsEveryPlatform(dirs: set<Path>, baseDir: Path, figureName: string, platforms: seq<string>)
    ensures FigureDir(baseDir, figureName) in dirs + StructureDirs(baseDir, figureName, platforms)
    ensures forall p :: p in platforms ==>
      Join(FigureDir(baseDir, figureName), p) in dirs + StructureDirs(baseDir, figureName, platforms)
  {
  }

  /** On a fresh run the base directory itself is made, with every ancestor of it. */
  lemma BaseDirCreated(baseDir: Path, figureName: string, platforms: seq<string>)
    requires baseDir != ""
    ensures Lineage(baseDir) <= StructureDirs(baseDir, figureName, platforms)
    ensures baseDir in StructureDirs(baseDir, figureName, platforms)
  {
    LineageOfJoin(baseDir, FolderName(figureName));
  }

  /** A second call with the same arguments leaves the same directories: `exist_ok` makes it idempotent. */
  lemma CreationIdempotent(dirs: set<Path>, baseDir: Path, figureName: string, platforms: seq<string>)
    ensures var once := dirs + StructureDirs(baseDir, figureName, platforms);
      once + StructureDirs(baseDir, figureName, platforms) == once
  {
  }

  /** Two characters a folder name cannot tell apart: equal, or each a space or an underscore. */
  predicate SameInFolderName(a: char, b: char) {
    a == b || ((a == ' ' || a == '_') && (b == ' ' || b == '_'))
  }

  /**
   * Two figures share a directory exactly when their names have the same
   * length and differ only by spaces against underscores.
   */
  lemma SameFigureDirIff(baseDir: Path, a: string, b: string)
    ensures FigureDir(baseDir, a) == FigureDir(baseDir, b) <==>
      |a| == |b| && forall i :: 0 <= i < |a| ==> SameInFolderName(a[i], b[i])
  {
    if FigureDir(baseDir, a) == FigureDir(baseDir, b) {
      JoinInjective(baseDir, FolderName(a), FolderName(b));
      forall i | 0 <= i < |a|
        ensures SameInFolderName(a[i], b[i])
      {
        assert FolderName(a)[i] == FolderName(b)[i];
      }
    }
    if |a| == |b| && forall i :: 0 <= i < |a| ==> SameInFolderName(a[i], b[i]) {
      assert FolderName(a) == FolderName(b);
    }
  }
}
