/**
 * The part of the file system the scaffolder touches, as a value: a map
 * from a path (its name segments) to a directory or a file with its text.
 * The root `[]` is a directory that is always there and is never a key.
 *
 * The operations are the POSIX calls behind `Path.mkdir`, `open` in append
 * mode, `shutil.copy` and `Path.rename`, each with the error the call
 * raises.
 */
module FileTree {
  import opened Wrappers

  type Path = seq<string>

  datatype Node = Dir | File(text: string)

  type Tree = map<Path, Node>

  /** The `OSError` subclasses the four calls raise, with the path they name. */
  datatype OsError =
    | FileExists(path: Path)      // EEXIST
    | FileNotFound(path: Path)    // ENOENT
    | NotADirectory(path: Path)   // ENOTDIR
    | IsADirectory(path: Path)    // EISDIR

  function Parent(p: Path): Path
    requires p != []
  {
    p[..|p| - 1]
  }

  predicate Exists(t: Tree, p: Path) { p == [] || p in t }

  predicate IsDir(t: Tree, p: Path) { p == [] || (p in t && t[p].Dir?) }

  predicate IsFile(t: Tree, p: Path) { p in t && t[p].File? }

  /** Every entry hangs below a directory: the shape a real file system has. */
  predicate WellFormed(t: Tree)
  {
    forall q :: q in t ==> q != [] && IsDir(t, Parent(q))
  }

  /**
   * Resolving directory `d` on the way to `p`: nothing when `d` is a
   * directory, ENOTDIR when `d` or one of its ancestors is a file, ENOENT
   * when one is missing.
   */
  function DirError(t: Tree, d: Path, p: Path): (e: Option<OsError>)
    ensures e.None? <==> IsDir(t, d)
    ensures e.Some? ==> e.value == FileNotFound(p) || e.value == NotADirectory(p)
    decreases |d|
  {
    if IsDir(t, d) then None
    else if d in t then Some(NotADirectory(p))
    else match DirError(t, Parent(d), p)
      case None => Some(FileNotFound(p))
      case Some(e) => Some(e)
  }

  /** `Path.mkdir()` without `parents` or `exist_ok`. */
  function Mkdir(t: Tree, p: Path): Result<Tree, OsError>
  {
    if p == [] then Failure(FileExists(p))
    else match DirError(t, Parent(p), p)
      case Some(e) => Failure(e)
      case None => if p in t then Failure(FileExists(p)) else Success(t[p := Dir])
  }

  /** `open(p, "a")` or `open(p, "a+")`: a missing file is created empty, an existing one is kept. */
  function OpenAppend(t: Tree, p: Path): (r: Result<Tree, OsError>)
    ensures r.Success? ==> p != [] && IsFile(r.value, p)
  {
    if p == [] then Failure(IsADirectory(p))
    else match DirError(t, Parent(p), p)
      case Some(e) => Failure(e)
      case None =>
        if p in t && t[p].Dir? then Failure(IsADirectory(p))
        else if p in t then Success(t)
        else Success(t[p := File("")])
  }

  /**
   * `shutil.copy(src, dst)` for a source file named `base` holding `text`:
   * into `dst/base` when `dst` is a directory, onto `dst` itself otherwise,
   * overwriting a file already there. Gives the path written and the tree.
   */
  function Copy(t: Tree, text: string, base: string, dst: Path): (r: Result<(Path, Tree), OsError>)
    ensures r.Success? ==> r.value.0 != [] && r.value.1 == t[r.value.0 := File(text)]
  {
    var target := if IsDir(t, dst) then dst + [base] else dst;
    match DirError(t, Parent(target), target)
    case Some(e) => Failure(e)
    case None =>
      if target in t && t[target].Dir? then Failure(IsADirectory(target))
      else Success((target, t[target := File(text)]))
  }

  /** `Path(src).rename(dst)` for a file: a file already at `dst` is replaced. */
  function Rename(t: Tree, src: Path, dst: Path): Result<Tree, OsError>
    requires IsFile(t, src)
  {
    if dst == [] then Failure(IsADirectory(dst))
    else match DirError(t, Parent(dst), dst)
      case Some(e) => Failure(e)
      case None =>
        if dst in t && t[dst].Dir? then Failure(IsADirectory(dst))
        else if dst == src then Success(t)
        else Success((t - {src})[dst := t[src]])
  }

  // ---------------------------------------------------------------------
  // Properties
  // ---------------------------------------------------------------------

  /** `mkdir` succeeds exactly when the parent is a directory and the name is free, and adds just that directory. */
  lemma MkdirSpec(t: Tree, p: Path)
    requires p != []
    ensures Mkdir(t, p).Success? <==> IsDir(t, Parent(p)) && p !in t
    ensures Mkdir(t, p).Success? ==> Mkdir(t, p).value == t[p := Dir]
    ensures p in t && IsDir(t, Parent(p)) ==> Mkdir(t, p) == Failure(FileExists(p))
  {
  }

  /** Appending to an existing file changes nothing; a missing one is created empty. */
  lemma OpenAppendSpec(t: Tree, p: Path)
    requires p != []
    ensures OpenAppend(t, p).Success? <==> IsDir(t, Parent(p)) && !(p in t && t[p].Dir?)
    ensures IsFile(t, p) && IsDir(t, Parent(p)) ==> OpenAppend(t, p) == Success(t)
    ensures p !in t && IsDir(t, Parent(p)) ==> OpenAppend(t, p) == Success(t[p := File("")])
  {
  }

  /** A child whose parent is missing fails with ENOENT when no ancestor is a file. */
  lemma {:induction false} MissingParent(t: Tree, d: Path, p: Path)
    requires WellFormed(t) && d !in t && d != []
    ensures DirError(t, d, p) == Some(FileNotFound(p)) || DirError(t, d, p) == Some(NotADirectory(p))
    ensures (forall q :: q in t ==> t[q].Dir?) ==> DirError(t, d, p) == Some(FileNotFound(p))
    decreases |d|
  {
    if Parent(d) != [] && Parent(d) !in t {
      MissingParent(t, Parent(d), p);
    }
  }

  lemma MkdirWellFormed(t: Tree, p: Path)
    requires WellFormed(t) && Mkdir(t, p).Success?
    ensures WellFormed(Mkdir(t, p).value)
  {
  }

  lemma OpenAppendWellFormed(t: Tree, p: Path)
    requires WellFormed(t) && OpenAppend(t, p).Success?
    ensures WellFormed(OpenAppend(t, p).value)
  {
  }

  lemma CopyWellFormed(t: Tree, text: string, base: string, dst: Path)
    requires WellFormed(t) && Copy(t, text, base, dst).Success?
    ensures WellFormed(Copy(t, text, base, dst).value.1)
  {
  }

  /** Renaming keeps the tree well formed: a file has no entries below it to orphan. */
  lemma RenameWellFormed(t: Tree, src: Path, dst: Path)
    requires WellFormed(t) && IsFile(t, src) && Rename(t, src, dst).Success?
    ensures WellFormed(Rename(t, src, dst).value)
  {
    var u := Rename(t, src, dst).value;
    forall q | q in u ensures q != [] && IsDir(u, Parent(q)) {
      assert q != [];
      if q != dst {
        assert q in t;
        assert IsDir(t, Parent(q));
      }
    }
  }
}
