/** The write-ahead journal of a local patch application, what acting on an intent does
    to the checkout, and the reverse walk over the journal that `rollback` makes. */
module LocalJournal {
  import opened CheckoutTree
  import opened Wrappers

  datatype Kind = Backup | RemoveDirectory | MakeDirectory | Install | ChangeMode

  datatype Action = Action(kind: Kind, path: Path, before: Entry, after: Entry)

  /** The checkout together with the journal's own store of backed-up files. */
  datatype Store = Store(files: Files, backup: Files)

  /** The combinations of kind, before-entry and after-entry that apply journals. */
  predicate WellShaped(a: Action) {
    && a.path != []
    && match a.kind
       case Backup => a.before.Of? && !a.before.node.Directory? && a.after.Absent?
       case RemoveDirectory => a.before.Of? && a.before.node.Directory? && a.after.Absent?
       case MakeDirectory => a.before.Absent? && a.after.Of? && a.after.node.Directory?
       case Install => a.before.Absent? && a.after.Of? && !a.after.node.Directory?
       case ChangeMode =>
         a.before.Of? && a.before.node.Directory? && a.after.Of? && a.after.node.Directory?
         && a.before.node.mode != a.after.node.mode
  }

  predicate Constructs(a: Action) {
    a.kind != Backup && a.kind != RemoveDirectory
  }

  /** Acting on an intent.  An install takes a staged file already verified to be the
      after-entry. */
  function Act(s: Store, a: Action): Option<Store>
    requires WellShaped(a)
  {
    var files := match a.kind
      case Backup => MoveOut(s.files, a.path)
      case RemoveDirectory => Rmdir(s.files, a.path)
      case MakeDirectory => Mkdir(s.files, a.path, a.after.node.mode)
      case Install => MoveIn(s.files, a.path, map[a.path := a.after.node])
      case ChangeMode => Chmod(s.files, a.path, a.after.node.mode);
    if files.None? then None
    else Some(Store(files.value,
                    if a.kind.Backup? && a.path in s.files
                    then s.backup[a.path := s.files[a.path]] else s.backup))
  }

  /** Undoing an action whose after-entry is in place. */
  function Undo(s: Store, a: Action): Option<Store>
    requires WellShaped(a)
  {
    var files := match a.kind
      case Install => MoveOut(s.files, a.path)
      case MakeDirectory => Rmdir(s.files, a.path)
      case ChangeMode => Chmod(s.files, a.path, a.before.node.mode)
      case RemoveDirectory => Mkdir(s.files, a.path, a.before.node.mode)
      case Backup => MoveIn(s.files, a.path, s.backup);
    if files.None? then None
    else Some(Store(files.value, if a.kind.Backup? then s.backup - {a.path} else s.backup))
  }

  predicate WellShapedAll(journal: seq<Action>) {
    forall i :: 0 <= i < |journal| ==> WellShaped(journal[i])
  }

  /** One step of the reverse walk: skip an action whose before-entry is in place, stop
      unless its after-entry is, and otherwise undo it. */
  function RewindOne(s: Store, a: Action): Option<Store>
    requires WellShaped(a)
  {
    match Lstat(s.files, a.path)
    case Blocked => None
    case Found(current) => if current == a.before then Some(s) else if current != a.after then None else Undo(s, a)
  }

  /** The reverse walk over the journal. */
  function Rewind(s: Store, journal: seq<Action>): (bool, Store)
    requires WellShapedAll(journal)
    decreases |journal|
  {
    if journal == [] then (true, s)
    else
      match RewindOne(s, journal[|journal| - 1])
      case None => (false, s)
      case Some(t) => Rewind(t, journal[..|journal| - 1])
  }

  lemma RewindBy(s: Store, journal: seq<Action>, k: nat)
    requires WellShapedAll(journal) && k < |journal|
    ensures WellShapedAll(journal[..k]) && WellShapedAll(journal[..k + 1])
    ensures Rewind(s, journal[..k + 1]) ==
            if RewindOne(s, journal[k]).None? then (false, s) else Rewind(RewindOne(s, journal[k]).value, journal[..k])
  {
    assert journal[..k + 1][..k] == journal[..k];
  }

  predicate Journals(journal: seq<Action>, p: Path) {
    exists i :: 0 <= i < |journal| && journal[i].path == p
  }

  lemma JournalsByLast(journal: seq<Action>, p: Path)
    requires journal != []
    ensures Journals(journal, p) <==>
              Journals(journal[..|journal| - 1], p) || journal[|journal| - 1].path == p
  {
    var rest := journal[..|journal| - 1];
    assert forall i :: 0 <= i < |rest| ==> rest[i] == journal[i];
  }

  /** The before-entry of the first action on a path. */
  function FirstBefore(journal: seq<Action>, p: Path): Entry
    requires Journals(journal, p)
  {
    var rest := journal[..|journal| - 1];
    if Journals(rest, p) then FirstBefore(rest, p)
    else journal[|journal| - 1].before
  }

  /** The check that ends a rollback: every journalled path reads as its first
      before-entry. */
  ghost predicate Restored(files: Files, journal: seq<Action>) {
    forall p :: Journals(journal, p) ==> Lstat(files, p) == Found(FirstBefore(journal, p))
  }

  // ---- Journals written by apply ----

  function After(s: Store, a: Action): Store {
    Store(Put(s.files, a.path, a.after),
          if a.kind.Backup? && a.before.Of? then s.backup[a.path := a.before.node] else s.backup)
  }

  function Replay(s0: Store, journal: seq<Action>): Store {
    if journal == [] then s0
    else After(Replay(s0, journal[..|journal| - 1]), journal[|journal| - 1])
  }

  /** An intent as apply writes it: checked against the checkout just before. */
  predicate Intended(s: Store, a: Action) {
    && WellShaped(a)
    && Lstat(s.files, a.path) == Found(a.before)
    && (a.kind.Backup? ==> a.path !in s.backup)
  }

  /** Every action was intended and then carried out, from a checkout that is a tree. */
  predicate Performed(s0: Store, journal: seq<Action>) {
    if journal == [] then IsTree(s0.files)
    else
      var rest, a := journal[..|journal| - 1], journal[|journal| - 1];
      && Performed(s0, rest)
      && Intended(Replay(s0, rest), a)
      && Act(Replay(s0, rest), a) == Some(Replay(s0, journal))
  }

  lemma ReplayBy(s0: Store, journal: seq<Action>, k: nat)
    requires k < |journal|
    ensures Replay(s0, journal[..k + 1]) == After(Replay(s0, journal[..k]), journal[k])
  {
    assert journal[..k + 1][..k] == journal[..k];
  }

  lemma PerformedBy(s0: Store, journal: seq<Action>, k: nat)
    requires k < |journal|
    ensures Performed(s0, journal[..k + 1]) <==>
              && Performed(s0, journal[..k]) && Intended(Replay(s0, journal[..k]), journal[k])
              && Act(Replay(s0, journal[..k]), journal[k]) == Some(Replay(s0, journal[..k + 1]))
  {
    assert journal[..k + 1][..k] == journal[..k];
  }

  /** The states in which apply can stop: all actions carried out, or the last one
      journalled only. */
  predicate Stopped(s0: Store, journal: seq<Action>, s: Store) {
    || (Performed(s0, journal) && s == Replay(s0, journal))
    || (&& journal != []
        && Performed(s0, journal[..|journal| - 1])
        && s == Replay(s0, journal[..|journal| - 1])
        && Intended(s, journal[|journal| - 1]))
  }

  lemma ActKeepsTree(s: Store, a: Action)
    requires IsTree(s.files) && WellShaped(a) && Act(s, a).Some?
    requires Lstat(s.files, a.path) == Found(a.before)
    ensures IsTree(Act(s, a).value.files)
    ensures Act(s, a).value == After(s, a)
  {
    var t := Act(s, a).value.files;
    assert HoldsDirectory(s.files, Parent(a.path));
    assert a.path != Parent(a.path);
    forall q | q in t && q != []
      ensures HoldsDirectory(t, Parent(q))
    {
      if q != a.path {
        assert q in s.files;
        assert HoldsDirectory(s.files, Parent(q));
        if Parent(q) == a.path {
          assert HasChild(s.files, a.path);
        }
      }
    }
  }

  lemma ReplayIsTree(s0: Store, journal: seq<Action>)
    requires Performed(s0, journal)
    ensures IsTree(Replay(s0, journal).files)
    ensures WellShapedAll(journal)
  {
    if journal != [] {
      var rest, a := journal[..|journal| - 1], journal[|journal| - 1];
      ReplayIsTree(s0, rest);
      ActKeepsTree(Replay(s0, rest), a);
      forall i | 0 <= i < |journal| ensures WellShaped(journal[i]) {
        assert i < |rest| ==> journal[i] == rest[i];
      }
    }
  }

  /** Undo is the exact inverse of acting. */
  lemma UndoInvertsAct(s: Store, a: Action)
    requires IsTree(s.files) && Intended(s, a) && Act(s, a) == Some(After(s, a))
    ensures Undo(After(s, a), a) == Some(s)
    ensures Lstat(After(s, a).files, a.path) == Found(a.after)
    ensures a.before != a.after
  {
    var t := After(s, a);
    ActKeepsTree(s, a);
    ParentStays(s, a);
    assert Lstat(t.files, a.path) == Found(a.after) by {
      LstatUnderDirectory(t.files, a.path);
    }
    if a.kind.MakeDirectory? {
      NewDirectoryIsEmpty(s, a);
    }
    assert s.files == Put(t.files, a.path, a.before);
    if a.kind.Backup? {
      assert t.backup - {a.path} == s.backup;
    }
  }

  lemma ParentStays(s: Store, a: Action)
    requires WellShaped(a) && Act(s, a) == Some(After(s, a))
    ensures HoldsDirectory(After(s, a).files, Parent(a.path))
  {
    assert a.path != Parent(a.path);
  }

  lemma NewDirectoryIsEmpty(s: Store, a: Action)
    requires IsTree(s.files) && WellShaped(a) && a.kind.MakeDirectory? && a.path !in s.files
    ensures !HasChild(After(s, a).files, a.path)
  {
    forall q | q in After(s, a).files && q != [] ensures Parent(q) != a.path {
      assert |Parent(q)| < |q|;
      assert q in s.files ==> HoldsDirectory(s.files, Parent(q));
    }
  }

  /** Undoing every action of a performed journal, one by one, ends where apply began. */
  lemma {:induction false} RewindUndoesReplay(s0: Store, journal: seq<Action>)
    requires Performed(s0, journal)
    ensures WellShapedAll(journal)
    ensures Rewind(Replay(s0, journal), journal) == (true, s0)
  {
    ReplayIsTree(s0, journal);
    if journal != [] {
      var rest, a := journal[..|journal| - 1], journal[|journal| - 1];
      ReplayIsTree(s0, rest);
      UndoInvertsAct(Replay(s0, rest), a);
      RewindUndoesReplay(s0, rest);
    }
  }

  lemma {:induction false} FirstBeforeIsOriginal(s0: Store, journal: seq<Action>, p: Path)
    requires Performed(s0, journal)
    ensures Journals(journal, p) ==> FirstBefore(journal, p) == EntryOf(s0.files, p)
    ensures !Journals(journal, p) ==>
              EntryOf(Replay(s0, journal).files, p) == EntryOf(s0.files, p)
  {
    if journal != [] {
      var rest, a := journal[..|journal| - 1], journal[|journal| - 1];
      FirstBeforeIsOriginal(s0, rest, p);
      JournalsByLast(journal, p);
    }
  }

  /** Every journalled path could be read before apply began, which `safeAncestors`
      establishes: no ancestor was anything but a directory. */
  ghost predicate AncestorsSafe(files: Files, journal: seq<Action>) {
    forall p :: Journals(journal, p) ==> !NonDirectoryAbove(files, p)
  }

  lemma OriginalIsRestored(s0: Store, journal: seq<Action>)
    requires Performed(s0, journal)
    requires AncestorsSafe(s0.files, journal)
    ensures Restored(s0.files, journal)
  {
    forall p | Journals(journal, p)
      ensures Lstat(s0.files, p) == Found(FirstBefore(journal, p))
    {
      FirstBeforeIsOriginal(s0, journal, p);
    }
  }

  /** A first uninterrupted rollback, from any point at which apply stopped, restores the
      checkout at every path and reports so. */
  lemma RollbackRestores(s0: Store, journal: seq<Action>, s: Store)
    requires Stopped(s0, journal, s)
    requires AncestorsSafe(s0.files, journal)
    ensures WellShapedAll(journal)
    ensures Rewind(s, journal) == (true, s0)
    ensures Restored(s0.files, journal)
  {
    if Performed(s0, journal) && s == Replay(s0, journal) {
      RewindUndoesReplay(s0, journal);
      OriginalIsRestored(s0, journal);
    } else {
      var rest, a := journal[..|journal| - 1], journal[|journal| - 1];
      RewindUndoesReplay(s0, rest);
      forall i | 0 <= i < |journal| ensures WellShaped(journal[i]) {
        assert i < |rest| ==> journal[i] == rest[i];
      }
      forall p | Journals(rest, p) ensures !NonDirectoryAbove(s0.files, p) {
        JournalsByLast(journal, p);
      }
      OriginalIsRestored(s0, rest);
      PendingIntentRestored(s0, journal, s);
    }
  }

  lemma PendingIntentRestored(s0: Store, journal: seq<Action>, s: Store)
    requires journal != []
    requires Performed(s0, journal[..|journal| - 1])
    requires s == Replay(s0, journal[..|journal| - 1])
    requires Intended(s, journal[|journal| - 1])
    requires AncestorsSafe(s0.files, journal)
    ensures Restored(s0.files, journal)
  {
    var rest, a := journal[..|journal| - 1], journal[|journal| - 1];
    forall p | Journals(journal, p)
      ensures Lstat(s0.files, p) == Found(FirstBefore(journal, p))
    {
      FirstBeforeIsOriginal(s0, rest, p);
      JournalsByLast(journal, p);
      if !Journals(rest, p) {
        assert Lstat(s.files, p) == Found(a.before);
        assert EntryOf(s.files, p) == a.before;
      }
    }
  }
}
