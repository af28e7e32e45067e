/** The local checkout as a map from paths to entries, and the file-system calls that
    the patch application makes on it.  A path is the sequence of its segments, so the
    checkout directory itself is the empty path; it is never an entry of the map. */
module CheckoutTree {
  import opened Wrappers

  type Path = seq<string>

  datatype Node =
    | Directory(mode: nat)
    | File(mode: nat, digest: string, size: nat)
    | Symlink(mode: nat, linkTarget: string)

  type Files = map<Path, Node>

  /** What a manifest or the journal says about one path. */
  datatype Entry = Absent | Of(node: Node)

  /** What `lstat` reports: an entry, no entry, or an error because some ancestor is not
      a directory. */
  datatype Seen = Found(entry: Entry) | Blocked

  function Parent(p: Path): Path
    requires p != []
  {
    p[..|p| - 1]
  }

  predicate HoldsDirectory(fs: Files, p: Path) {
    p == [] || (p in fs && fs[p].Directory?)
  }

  /** Every entry lies directly inside a directory. */
  predicate IsTree(fs: Files) {
    && [] !in fs
    && forall p {:trigger Parent(p)} :: p in fs && p != [] ==> HoldsDirectory(fs, Parent(p))
  }

  function EntryOf(fs: Files, p: Path): Entry {
    if p in fs then Of(fs[p]) else Absent
  }

  predicate NonDirectoryAbove(fs: Files, p: Path) {
    exists i :: 0 < i < |p| && p[..i] in fs && !fs[p[..i]].Directory?
  }

  function Lstat(fs: Files, p: Path): Seen {
    if p in fs then Found(Of(fs[p]))
    else if NonDirectoryAbove(fs, p) then Blocked
    else Found(Absent)
  }

  /** The map with one path set to one entry. */
  function Put(fs: Files, p: Path, e: Entry): Files {
    match e
    case Absent => fs - {p}
    case Of(n) => fs[p := n]
  }

  predicate HasChild(fs: Files, p: Path) {
    exists q :: q in fs && q != [] && Parent(q) == p
  }

  // Each call below first opens the parent directory without following a link, so a
  // missing or non-directory parent makes it fail.  None is a failing system call.

  function Rmdir(fs: Files, p: Path): Option<Files>
    requires p != []
  {
    if HoldsDirectory(fs, Parent(p)) && p in fs && fs[p].Directory? && !HasChild(fs, p)
    then Some(fs - {p}) else None
  }

  function Mkdir(fs: Files, p: Path, mode: nat): Option<Files>
    requires p != []
  {
    if HoldsDirectory(fs, Parent(p)) && p !in fs then Some(fs[p := Directory(mode)]) else None
  }

  function Chmod(fs: Files, p: Path, mode: nat): Option<Files>
    requires p != []
  {
    if HoldsDirectory(fs, Parent(p)) && p in fs && fs[p].Directory?
    then Some(fs[p := Directory(mode)]) else None
  }

  /** Renames a non-directory out of the checkout. */
  function MoveOut(fs: Files, p: Path): Option<Files>
    requires p != []
  {
    if HoldsDirectory(fs, Parent(p)) && p in fs && !fs[p].Directory? then Some(fs - {p}) else None
  }

  /** Renames a non-directory held elsewhere to a path of the checkout; a rename never
      replaces a directory by a file. */
  function MoveIn(fs: Files, p: Path, held: Files): Option<Files>
    requires p != []
  {
    if HoldsDirectory(fs, Parent(p)) && p in held && !(p in fs && fs[p].Directory?)
    then Some(fs[p := held[p]]) else None
  }

  lemma AncestorsHoldDirectories(fs: Files, p: Path, i: nat)
    requires IsTree(fs)
    requires i < |p|
    requires HoldsDirectory(fs, Parent(p))
    ensures HoldsDirectory(fs, p[..i])
    decreases |p| - i
  {
    if i < |p| - 1 {
      AncestorsHoldDirectories(fs, p, i + 1);
      var q := p[..i + 1];
      assert Parent(q) == p[..i];
    }
  }

  /** In a tree, a path inside a directory is always readable. */
  lemma LstatUnderDirectory(fs: Files, p: Path)
    requires IsTree(fs)
    requires p != [] && HoldsDirectory(fs, Parent(p))
    ensures Lstat(fs, p) == Found(EntryOf(fs, p))
  {
    if NonDirectoryAbove(fs, p) {
      var i :| 0 < i < |p| && p[..i] in fs && !fs[p[..i]].Directory?;
      AncestorsHoldDirectories(fs, p, i);
    }
  }
}
