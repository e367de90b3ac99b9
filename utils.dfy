/**
 * `is_dir_empty`: a directory is empty when listing it yields nothing.
 * The listing is every direct entry, hidden names included, which is what
 * `Path.glob("*")` gives.
 */
module Utils {
  import opened FileTree

  /** `q` is a direct entry of directory `p`. */
  predicate ChildOf(q: Path, p: Path)
  {
    q != [] && Parent(q) == p
  }

  predicate IsDirEmpty(t: Tree, p: Path)
  {
    !exists q :: q in t && ChildOf(q, p)
  }

  /** `q` lies somewhere below `p`. */
  predicate Below(q: Path, p: Path)
  {
    |p| < |q| && q[..|p|] == p
  }

  /** A directory holding a named entry is not empty. */
  lemma EntryMakesNonEmpty(t: Tree, p: Path, name: string)
    requires p + [name] in t
    ensures !IsDirEmpty(t, p)
  {
    assert ChildOf(p + [name], p);
  }

  /** Creating a directory inside `p` leaves `p` non-empty. */
  lemma MkdirMakesNonEmpty(t: Tree, p: Path, name: string)
    requires Mkdir(t, p + [name]).Success?
    ensures !IsDirEmpty(Mkdir(t, p + [name]).value, p)
  {
    EntryMakesNonEmpty(Mkdir(t, p + [name]).value, p, name);
  }

  /** Creating a file inside `p` leaves `p` non-empty. */
  lemma OpenAppendMakesNonEmpty(t: Tree, p: Path, name: string)
    requires OpenAppend(t, p + [name]).Success?
    ensures !IsDirEmpty(OpenAppend(t, p + [name]).value, p)
  {
    var q := p + [name];
    assert q in OpenAppend(t, q).value;
    EntryMakesNonEmpty(OpenAppend(t, q).value, p, name);
  }

  /**
   * In a well-formed tree an empty directory has nothing anywhere below it,
   * not just no direct entries.
   */
  lemma EmptyHasNothingBelow(t: Tree, p: Path)
    requires WellFormed(t) && IsDirEmpty(t, p)
    ensures forall q :: q in t ==> !Below(q, p)
  {
    forall q | q in t {
      BelowMakesNonEmpty(t, q, p);
    }
  }

  /** An entry anywhere below `p` means `p` has a direct entry. */
  lemma BelowMakesNonEmpty(t: Tree, q: Path, p: Path)
    requires WellFormed(t) && q in t
    ensures Below(q, p) ==> !IsDirEmpty(t, p)
  {
    if Below(q, p) {
      var c := q[..|p| + 1];
      AncestorPresent(t, q, |p| + 1);
      assert ChildOf(c, p);
    }
  }

  /** Every non-empty proper prefix of an entry of a well-formed tree is an entry too. */
  lemma {:induction false} AncestorPresent(t: Tree, q: Path, k: nat)
    requires WellFormed(t) && q in t && 0 < k <= |q|
    ensures q[..k] in t
    decreases |q| - k
  {
    if k < |q| {
      var r := Parent(q);
      assert IsDir(t, r);
      assert r != [] && r in t;
      AncestorPresent(t, r, k);
      assert r[..k] == q[..k];
    } else {
      assert q[..k] == q;
    }
  }
}
