/** What a rollback can be relied on for when its starting point is not the state apply
    left: an edited checkout, or one left by an interrupted rollback. */
module LocalRestart {
  import opened CheckoutTree
  import opened LocalJournal
  import opened Wrappers

  // ---- From any checkout: only recorded changes are undone ----

  /** `files'` comes from `files` by undoing some of the actions, last to first, each at
      most once and each only where its after-entry was in place. */
  ghost predicate OnlyUndone(files: Files, journal: seq<Action>, files': Files)
    decreases |journal|
  {
    if journal == [] then files' == files
    else
      var rest, a := journal[..|journal| - 1], journal[|journal| - 1];
      || OnlyUndone(files, rest, files')
      || (EntryOf(files, a.path) == a.after && OnlyUndone(Put(files, a.path, a.before), rest, files'))
  }

  /** Whatever the journal's backup area still holds is what was backed up. */
  ghost predicate BackupsMatch(backup: Files, journal: seq<Action>) {
    forall i :: 0 <= i < |journal| && journal[i].kind.Backup? && journal[i].path in backup
      ==> journal[i].before == Of(backup[journal[i].path])
  }

  /** From any checkout, a rollback only ever moves a path from an action's after-entry
      to that action's before-entry. */
  lemma {:induction false} RewindOnlyUndoes(s: Store, journal: seq<Action>)
    requires WellShapedAll(journal)
    requires BackupsMatch(s.backup, journal)
    ensures OnlyUndone(s.files, journal, Rewind(s, journal).1.files)
    decreases |journal|
  {
    if journal == [] {
    } else {
      var rest, a := journal[..|journal| - 1], journal[|journal| - 1];
      assert forall i :: 0 <= i < |rest| ==> rest[i] == journal[i];
      var next := RewindOne(s, a);
      if next.None? {
        NothingUndone(s.files, journal);
      } else {
        assert next.value == s || next.value.files == Put(s.files, a.path, a.before);
        RewindOnlyUndoes(next.value, rest);
      }
    }
  }

  lemma NothingUndone(files: Files, journal: seq<Action>)
    ensures OnlyUndone(files, journal, files)
    decreases |journal|
  {
    if journal != [] {
      NothingUndone(files, journal[..|journal| - 1]);
    }
  }

  /** So a path outside the journal keeps its entry, and a journalled path that changed
      was taken from some after-entry to some before-entry. */
  lemma {:induction false} UndoneOnlyAtJournalledPaths(files: Files, journal: seq<Action>, files': Files, p: Path)
    requires OnlyUndone(files, journal, files')
    ensures EntryOf(files', p) == EntryOf(files, p)
            || exists i, j :: 0 <= i <= j < |journal| && journal[i].path == p == journal[j].path
                 && EntryOf(files, p) == journal[j].after && EntryOf(files', p) == journal[i].before
    decreases |journal|
  {
    if journal != [] {
      var last := |journal| - 1;
      var rest, a := journal[..last], journal[last];
      assert forall i :: 0 <= i < |rest| ==> rest[i] == journal[i];
      if OnlyUndone(files, rest, files') {
        UndoneOnlyAtJournalledPaths(files, rest, files', p);
      } else {
        var mid := Put(files, a.path, a.before);
        UndoneOnlyAtJournalledPaths(mid, rest, files', p);
        if a.path == p {
          assert EntryOf(mid, p) == a.before;
          if EntryOf(files', p) == EntryOf(mid, p) {
            assert journal[last].path == p;
          } else {
            var i, j :| 0 <= i <= j < |rest| && rest[i].path == p == rest[j].path
              && EntryOf(mid, p) == rest[j].after && EntryOf(files', p) == rest[i].before;
            assert journal[i].path == p == journal[last].path;
          }
        }
      }
    }
  }

  // ---- From a checkout left by an interrupted rollback ----

  function At(s0: Store, journal: seq<Action>, k: nat): Store
    requires k <= |journal|
  {
    Replay(s0, journal[..k])
  }

  /** Apply journals a path at most twice: first its removal, then a construction in its
      place; a directory is never removed to be made again. */
  ghost predicate Paired(journal: seq<Action>) {
    forall i, j :: 0 <= i < j < |journal| && journal[i].path == journal[j].path ==>
      && !Constructs(journal[i]) && Constructs(journal[j])
      && !(journal[i].kind.RemoveDirectory? && journal[j].kind.MakeDirectory?)
  }

  ghost predicate DistinctPaths(journal: seq<Action>, from: nat, to: nat)
    requires from <= to <= |journal|
  {
    forall i, k :: from <= i < k < to ==> journal[i].path != journal[k].path
  }

  ghost predicate Touches(journal: seq<Action>, from: nat, to: nat, p: Path)
    requires from <= to <= |journal|
  {
    exists i :: from <= i < to && journal[i].path == p
  }

  lemma {:induction false} PerformedPrefix(s0: Store, journal: seq<Action>, k: nat)
    requires Performed(s0, journal) && k <= |journal|
    ensures Performed(s0, journal[..k])
    decreases |journal| - k
  {
    if k == |journal| {
      assert journal[..k] == journal;
    } else {
      PerformedPrefix(s0, journal, k + 1);
      PerformedBy(s0, journal, k);
    }
  }

  lemma PerformedAt(s0: Store, journal: seq<Action>, k: nat)
    requires Performed(s0, journal) && k <= |journal|
    ensures Performed(s0, journal[..k])
    ensures IsTree(At(s0, journal, k).files)
    ensures k < |journal| ==>
              && Intended(At(s0, journal, k), journal[k])
              && At(s0, journal, k + 1) == After(At(s0, journal, k), journal[k])
              && Act(At(s0, journal, k), journal[k]) == Some(At(s0, journal, k + 1))
  {
    PerformedPrefix(s0, journal, k);
    ReplayIsTree(s0, journal[..k]);
    if k < |journal| {
      PerformedPrefix(s0, journal, k + 1);
      PerformedBy(s0, journal, k);
      ReplayBy(s0, journal, k);
    }
  }

  lemma EntryStep(s0: Store, journal: seq<Action>, k: nat, q: Path)
    requires Performed(s0, journal) && k < |journal|
    ensures WellShaped(journal[k])
    ensures var e, e' := EntryOf(At(s0, journal, k).files, q), EntryOf(At(s0, journal, k + 1).files, q);
            if journal[k].path == q then e == journal[k].before && e' == journal[k].after else e' == e
  {
    PerformedAt(s0, journal, k);
  }

  lemma TouchesByLast(journal: seq<Action>, from: nat, to: nat, p: Path)
    requires from < to <= |journal|
    ensures Touches(journal, from, to, p) <==>
              Touches(journal, from, to - 1, p) || journal[to - 1].path == p
  {
    if Touches(journal, from, to, p) {
      var i :| from <= i < to && journal[i].path == p;
      assert i == to - 1 || Touches(journal, from, to - 1, p);
    }
  }

  /** Actions elsewhere leave a path's entry alone. */
  lemma {:induction false} EntryStable(s0: Store, journal: seq<Action>, j: nat, k: nat, p: Path)
    requires Performed(s0, journal) && j <= k <= |journal|
    requires !Touches(journal, j, k, p)
    ensures EntryOf(At(s0, journal, k).files, p) == EntryOf(At(s0, journal, j).files, p)
    decreases k
  {
    if j < k {
      PerformedAt(s0, journal, k - 1);
      assert journal[k - 1].path != p;
      EntryStable(s0, journal, j, k - 1, p);
    }
  }

  lemma {:induction false} BackupGrows(s0: Store, journal: seq<Action>, j: nat, k: nat, p: Path)
    requires Performed(s0, journal) && j <= k <= |journal|
    requires p in At(s0, journal, j).backup
    ensures p in At(s0, journal, k).backup
    decreases k
  {
    if j < k {
      PerformedAt(s0, journal, k - 1);
      BackupGrows(s0, journal, j, k - 1, p);
    }
  }

  /** One action per path cannot turn a file into a directory. */
  lemma {:induction false} NoDirectoryInPlaceOfFile(s0: Store, journal: seq<Action>, j: nat, k: nat, q: Path)
    requires Performed(s0, journal) && j <= k <= |journal|
    requires DistinctPaths(journal, j, k)
    requires var e := EntryOf(At(s0, journal, j).files, q); e.Of? && !e.node.Directory?
    ensures var e := EntryOf(At(s0, journal, k).files, q);
            if Touches(journal, j, k, q) then e.Absent? else e == EntryOf(At(s0, journal, j).files, q)
    decreases k
  {
    if j < k {
      NoDirectoryInPlaceOfFile(s0, journal, j, k - 1, q);
      EntryStep(s0, journal, k - 1, q);
      TouchesByLast(journal, j, k, q);
    }
  }

  /** A path without an entry, whose parent is a directory later, was readable before. */
  lemma NotBlockedBefore(s0: Store, journal: seq<Action>, j: nat, k: nat, p: Path)
    requires Performed(s0, journal) && j <= k <= |journal| && DistinctPaths(journal, j, k)
    requires p != [] && HoldsDirectory(At(s0, journal, k).files, Parent(p))
    ensures !NonDirectoryAbove(At(s0, journal, j).files, p)
  {
    var s, t := At(s0, journal, j), At(s0, journal, k);
    PerformedAt(s0, journal, k);
    forall i | 0 < i < |p| && p[..i] in s.files
      ensures s.files[p[..i]].Directory?
    {
      AncestorsHoldDirectories(t.files, p, i);
      if !s.files[p[..i]].Directory? {
        NoDirectoryInPlaceOfFile(s0, journal, j, k, p[..i]);
      }
    }
  }

  /** An action already undone, on a path not undone since, reads as its before-entry. */
  lemma UndoneReadsBefore(s0: Store, journal: seq<Action>, j: nat, k: nat)
    requires Performed(s0, journal) && j < k <= |journal|
    requires DistinctPaths(journal, j, k)
    ensures Lstat(At(s0, journal, j).files, journal[k - 1].path) == Found(journal[k - 1].before)
  {
    var a := journal[k - 1];
    PerformedAt(s0, journal, k - 1);
    EntryStable(s0, journal, j, k - 1, a.path);
    ActsInDirectory(At(s0, journal, k - 1), a);
    NotBlockedBefore(s0, journal, j, k - 1, a.path);
  }

  lemma ActsInDirectory(s: Store, a: Action)
    requires WellShaped(a) && Act(s, a).Some? && Lstat(s.files, a.path) == Found(a.before)
    ensures HoldsDirectory(s.files, Parent(a.path)) && EntryOf(s.files, a.path) == a.before
  {
  }

  lemma {:induction false} SkipsUndone(s0: Store, journal: seq<Action>, j: nat, k: nat)
    requires Performed(s0, journal) && j <= k <= |journal|
    requires DistinctPaths(journal, j, k)
    ensures WellShapedAll(journal[..k])
    ensures Rewind(At(s0, journal, j), journal[..k]) == (true, s0)
    decreases k
  {
    PerformedAt(s0, journal, k);
    ReplayIsTree(s0, journal[..k]);
    ReplayIsTree(s0, journal);
    if j == k {
      RewindUndoesReplay(s0, journal[..k]);
    } else {
      SkipsUndone(s0, journal, j, k - 1);
      UndoneReadsBefore(s0, journal, j, k);
      RewindBy(At(s0, journal, j), journal, k - 1);
    }
  }

  /** A backed-up file that is neither in the checkout nor in the backup area stops the
      walk. */
  lemma {:induction false} LostBackupStops(t: Store, journal: seq<Action>, m: nat, h: nat)
    requires WellShapedAll(journal) && m < h <= |journal|
    requires journal[m].kind.Backup?
    requires forall i :: 0 <= i < h && i != m ==> journal[i].path != journal[m].path
    requires journal[m].path !in t.files && journal[m].path !in t.backup
    ensures !Rewind(t, journal[..h]).0
    decreases h
  {
    var next := RewindOne(t, journal[h - 1]);
    RewindBy(t, journal, h - 1);
    if m < h - 1 && next.Some? {
      LostBackupStops(next.value, journal, m, h - 1);
    }
  }

  /** Apply stopped with the first `k` actions done: at the end, or after the intent of the
      next action and before the action. */
  ghost predicate StoppedAt(s0: Store, journal: seq<Action>, k: nat) {
    && k <= |journal| && Performed(s0, journal[..k])
    && (k < |journal| ==> k == |journal| - 1 && Intended(At(s0, journal, k), journal[k]))
  }

  /** So the states of a journal's prefix are those of the journal. */
  lemma AtPrefix(s0: Store, journal: seq<Action>, k: nat, j: nat)
    requires j <= k <= |journal|
    ensures At(s0, journal[..k], j) == At(s0, journal, j)
  {
    assert journal[..k][..j] == journal[..j];
  }

  /** A path whose removal and construction were both undone shows its original entry,
      where the construction expects none. */
  lemma RestoredEntry(s0: Store, journal: seq<Action>, j: nat, m: nat, k: nat)
    requires j <= m < k < |journal|
    requires Performed(s0, journal[..k]) && Intended(At(s0, journal, k), journal[k]) && Paired(journal)
    requires journal[m].path == journal[k].path
    ensures WellShaped(journal[m]) && WellShaped(journal[k])
    ensures EntryOf(At(s0, journal, j).files, journal[m].path) == journal[m].before
    ensures journal[m].before.Of? && journal[k].before.Absent?
  {
    var p, done := journal[m].path, journal[..k];
    AtPrefix(s0, journal, k, j);
    AtPrefix(s0, journal, k, k);
    EntryStable(s0, done, j, m, p);
    EntryStep(s0, done, m, p);
    EntryStable(s0, done, m + 1, k, p);
  }

  lemma NotYetBackedUp(s0: Store, journal: seq<Action>, j: nat, m: nat)
    requires Performed(s0, journal) && j <= m < |journal|
    requires journal[m].kind.Backup?
    ensures journal[m].path !in At(s0, journal, j).backup
  {
    PerformedAt(s0, journal, m);
    if journal[m].path in At(s0, journal, j).backup {
      BackupGrows(s0, journal, j, m, journal[m].path);
      assert false;
    }
  }

  /** Undoing a construction once more takes the original entry away. */
  lemma SecondUndoRemoves(s: Store, a: Action)
    requires WellShaped(a) && a.before.Absent? && EntryOf(s.files, a.path).Of? && RewindOne(s, a).Some?
    ensures a.path !in RewindOne(s, a).value.files && RewindOne(s, a).value.backup == s.backup
    ensures EntryOf(s.files, a.path) == a.after
  {
  }

  lemma RestoredTwiceStops(s0: Store, journal: seq<Action>, j: nat, m: nat, k: nat)
    requires j <= m < k < |journal|
    requires Performed(s0, journal[..k]) && Intended(At(s0, journal, k), journal[k])
    requires Paired(journal) && WellShapedAll(journal)
    requires journal[m].path == journal[k].path
    ensures !Rewind(At(s0, journal, j), journal[..k + 1]).0
  {
    var s := At(s0, journal, j);
    var next := RewindOne(s, journal[k]);
    RewindBy(s, journal, k);
    RestoredEntry(s0, journal, j, m, k);
    if next.Some? {
      AtPrefix(s0, journal, k, j);
      if journal[m].kind.Backup? {
        NotYetBackedUp(s0, journal[..k], j, m);
      }
      SecondUndoRemoves(s, journal[k]);
      LostBackupStops(next.value, journal, m, k);
    }
  }

  lemma {:induction false} RepeatedPathStops(s0: Store, journal: seq<Action>, j: nat, k: nat)
    requires Performed(s0, journal) && Paired(journal) && WellShapedAll(journal)
    requires j <= k <= |journal|
    requires !DistinctPaths(journal, j, k)
    ensures !Rewind(At(s0, journal, j), journal[..k]).0
    decreases k
  {
    var last := k - 1;
    RewindBy(At(s0, journal, j), journal, last);
    if Touches(journal, j, last, journal[last].path) {
      var m :| j <= m < last && journal[m].path == journal[last].path;
      PerformedAt(s0, journal, last);
      RestoredTwiceStops(s0, journal, j, m, last);
    } else {
      EntryStable(s0, journal, j, last, journal[last].path);
      EntryStep(s0, journal, last, journal[last].path);
      RepeatedPathStops(s0, journal, j, last);
    }
  }

  lemma RestartAfterAll(s0: Store, journal: seq<Action>, j: nat)
    requires Performed(s0, journal) && Paired(journal) && WellShapedAll(journal)
    requires j <= |journal|
    ensures Rewind(At(s0, journal, j), journal).0 <==> DistinctPaths(journal, j, |journal|)
    ensures DistinctPaths(journal, j, |journal|) ==> Rewind(At(s0, journal, j), journal).1 == s0
  {
    assert journal[..|journal|] == journal;
    if DistinctPaths(journal, j, |journal|) {
      SkipsUndone(s0, journal, j, |journal|);
    } else {
      RepeatedPathStops(s0, journal, j, |journal|);
    }
  }

  /** A path journalled on both sides of `j` has been removed by then. */
  lemma RemovedInBetween(s0: Store, journal: seq<Action>, j: nat, q: Path)
    requires Performed(s0, journal) && Paired(journal) && j <= |journal|
    requires Touches(journal, 0, j, q) && Touches(journal, j, |journal|, q)
    ensures EntryOf(At(s0, journal, j).files, q).Absent?
  {
    var m :| 0 <= m < j && journal[m].path == q;
    var h :| j <= h < |journal| && journal[h].path == q;
    assert !Constructs(journal[m]);
    assert !Touches(journal, m + 1, j, q);
    EntryStep(s0, journal, m, q);
    EntryStable(s0, journal, m + 1, j, q);
  }

  /** A file above a path that was there at `j` was there at the beginning or at the end. */
  lemma FilesStayAbove(s0: Store, journal: seq<Action>, j: nat, p: Path)
    requires Performed(s0, journal) && Paired(journal) && j <= |journal|
    requires NonDirectoryAbove(At(s0, journal, j).files, p)
    ensures NonDirectoryAbove(s0.files, p) || NonDirectoryAbove(Replay(s0, journal).files, p)
  {
    var i :| 0 < i < |p| && p[..i] in At(s0, journal, j).files && !At(s0, journal, j).files[p[..i]].Directory?;
    var q := p[..i];
    assert journal[..0] == [] && journal[..|journal|] == journal;
    if !Touches(journal, 0, j, q) {
      EntryStable(s0, journal, 0, j, q);
    } else if !Touches(journal, j, |journal|, q) {
      EntryStable(s0, journal, j, |journal|, q);
    } else {
      RemovedInBetween(s0, journal, j, q);
    }
  }

  /** An intent that was never acted on is passed over, unless its path had its removal
      undone. */
  lemma IntentPassedOver(s0: Store, done: seq<Action>, a: Action, j: nat)
    requires Performed(s0, done) && Paired(done) && j <= |done|
    requires Intended(Replay(s0, done), a) && !NonDirectoryAbove(s0.files, a.path)
    requires !Touches(done, j, |done|, a.path)
    ensures Lstat(At(s0, done, j).files, a.path) == Found(a.before)
  {
    assert done[..|done|] == done;
    EntryStable(s0, done, j, |done|, a.path);
    if a.before.Absent? && NonDirectoryAbove(At(s0, done, j).files, a.path) {
      FilesStayAbove(s0, done, j, a.path);
      assert false;
    }
  }

  lemma RestartAfterIntent(s0: Store, journal: seq<Action>, j: nat, k: nat)
    requires j <= k < |journal| && StoppedAt(s0, journal, k) && Paired(journal) && WellShapedAll(journal)
    requires AncestorsSafe(s0.files, journal)
    ensures Rewind(At(s0, journal, j), journal).0 <==> DistinctPaths(journal, j, |journal|)
    ensures DistinctPaths(journal, j, |journal|) ==> Rewind(At(s0, journal, j), journal).1 == s0
  {
    assert journal[..k + 1] == journal;
    if Touches(journal, j, k, journal[k].path) {
      var m :| j <= m < k && journal[m].path == journal[k].path;
      RestoredTwiceStops(s0, journal, j, m, k);
    } else {
      RestartPastIntent(s0, journal, j, k);
    }
  }

  lemma RestartPastIntent(s0: Store, journal: seq<Action>, j: nat, k: nat)
    requires j <= k < |journal| && StoppedAt(s0, journal, k) && Paired(journal) && WellShapedAll(journal)
    requires AncestorsSafe(s0.files, journal) && !Touches(journal, j, k, journal[k].path)
    ensures Rewind(At(s0, journal, j), journal).0 <==> DistinctPaths(journal, j, |journal|)
    ensures DistinctPaths(journal, j, |journal|) ==> Rewind(At(s0, journal, j), journal).1 == s0
  {
    var s, done, a := At(s0, journal, j), journal[..k], journal[k];
    assert WellShapedAll(done) && Paired(done);
    assert Journals(journal, a.path);
    AtPrefix(s0, journal, k, j);
    assert !Touches(done, j, k, a.path);
    IntentPassedOver(s0, done, a, j);
    RestartAfterAll(s0, done, j);
    assert Rewind(s, journal) == Rewind(s, done) by {
      assert journal[..k + 1] == journal;
      RewindBy(s, journal, k);
      assert RewindOne(s, a) == Some(s);
    }
    DistinctByLast(journal, j, k);
  }

  lemma DistinctByLast(journal: seq<Action>, j: nat, k: nat)
    requires j <= k == |journal| - 1 && !Touches(journal, j, k, journal[k].path)
    ensures DistinctPaths(journal[..k], j, k) <==> DistinctPaths(journal, j, |journal|)
  {
    var done := journal[..k];
    assert forall i :: 0 <= i < k ==> done[i] == journal[i];
    if DistinctPaths(journal, j, |journal|) {
      assert forall i, h :: j <= i < h < k ==> journal[i].path != journal[h].path;
    }
    if DistinctPaths(done, j, k) {
      forall i, h | j <= i < h < |journal|
        ensures journal[i].path != journal[h].path
      {
        if h < k {
          assert done[i].path != done[h].path;
        } else if journal[i].path == journal[h].path {
          assert Touches(journal, j, k, journal[k].path);
          assert false;
        }
      }
    }
  }

  /** A rollback after apply stopped anywhere, interrupted when the first `j` actions were
      still to be undone and then started again, reports true exactly when no path had its
      removal undone that also has a construction in the journal after it. */
  lemma RestartExactlyWhenDistinct(s0: Store, journal: seq<Action>, k: nat, j: nat)
    requires StoppedAt(s0, journal, k) && j <= k && Paired(journal)
    requires AncestorsSafe(s0.files, journal)
    ensures WellShapedAll(journal)
    ensures var (ok, t) := Rewind(At(s0, journal, j), journal);
            (ok && Restored(t.files, journal)) <==> DistinctPaths(journal, j, |journal|)
    ensures DistinctPaths(journal, j, |journal|) ==> Rewind(At(s0, journal, j), journal).1 == s0
  {
    assert Stopped(s0, journal, At(s0, journal, k)) by {
      assert k == |journal| ==> journal[..k] == journal;
    }
    RollbackRestores(s0, journal, At(s0, journal, k));
    if k == |journal| {
      assert journal[..k] == journal;
      RestartAfterAll(s0, journal, j);
    } else {
      RestartAfterIntent(s0, journal, j, k);
    }
  }

  /** The store after `m` turns of the reverse walk, unless one of them stopped it. */
  function Turns(s: Store, journal: seq<Action>, m: nat): Option<Store>
    requires WellShapedAll(journal) && m <= |journal|
  {
    if m == 0 then Some(s)
    else
      match Turns(s, journal, m - 1)
      case None => None
      case Some(t) => RewindOne(t, journal[|journal| - m])
  }

  /** How many of the `k` actions done are still to be undone after `m` turns. */
  function ToUndo(journal: seq<Action>, k: nat, m: nat): nat
    requires m <= |journal|
  {
    if |journal| - m < k then |journal| - m else k
  }

  lemma TurnUndoes(s0: Store, journal: seq<Action>, k: nat, i: nat)
    requires StoppedAt(s0, journal, k) && i < |journal|
    ensures WellShaped(journal[i])
    ensures i < k ==> RewindOne(At(s0, journal, i + 1), journal[i]) == Some(At(s0, journal, i))
    ensures i >= k ==> RewindOne(At(s0, journal, k), journal[i]) == Some(At(s0, journal, k))
  {
    if i < k {
      AtPrefix(s0, journal, k, i);
      AtPrefix(s0, journal, k, i + 1);
      PerformedAt(s0, journal[..k], i);
      UndoInvertsAct(At(s0, journal, i), journal[i]);
    }
  }

  lemma {:induction false} TurnsReach(s0: Store, journal: seq<Action>, k: nat, m: nat)
    requires StoppedAt(s0, journal, k) && WellShapedAll(journal) && m <= |journal|
    ensures Turns(At(s0, journal, k), journal, m) == Some(At(s0, journal, ToUndo(journal, k, m)))
  {
    if m > 0 {
      TurnsReach(s0, journal, k, m - 1);
      TurnUndoes(s0, journal, k, |journal| - m);
    }
  }

  ghost predicate LeftBy(s: Store, journal: seq<Action>, m: nat, t: Store)
    requires WellShapedAll(journal)
  {
    m <= |journal| && Turns(s, journal, m) == Some(t)
  }

  ghost predicate IsAt(s0: Store, journal: seq<Action>, k: nat, j: nat, t: Store) {
    j <= k <= |journal| && At(s0, journal, j) == t
  }

  /** A first rollback interrupted after some number of turns leaves one of the states that
      apply went through, and it can leave each of them. */
  lemma InterruptedExactly(s0: Store, journal: seq<Action>, k: nat, t: Store)
    requires StoppedAt(s0, journal, k) && WellShapedAll(journal)
    ensures (exists m :: LeftBy(At(s0, journal, k), journal, m, t)) <==> (exists j :: IsAt(s0, journal, k, j, t))
  {
    if m :| LeftBy(At(s0, journal, k), journal, m, t) {
      TurnsReach(s0, journal, k, m);
      assert IsAt(s0, journal, k, ToUndo(journal, k, m), t);
    }
    if j :| IsAt(s0, journal, k, j, t) {
      TurnsReach(s0, journal, k, |journal| - j);
      assert LeftBy(At(s0, journal, k), journal, |journal| - j, t);
    }
  }

  /** A rollback interrupted after `m` turns and started again reports true exactly when no
      path journalled twice is among the actions already undone. */
  lemma RestartAfterTurns(s0: Store, journal: seq<Action>, k: nat, m: nat)
    requires StoppedAt(s0, journal, k) && Paired(journal) && m <= |journal|
    requires AncestorsSafe(s0.files, journal)
    ensures WellShapedAll(journal) && Turns(At(s0, journal, k), journal, m).Some?
    ensures var (ok, t) := Rewind(Turns(At(s0, journal, k), journal, m).value, journal);
            (ok && Restored(t.files, journal)) <==> DistinctPaths(journal, ToUndo(journal, k, m), |journal|)
  {
    RestartExactlyWhenDistinct(s0, journal, k, ToUndo(journal, k, m));
    TurnsReach(s0, journal, k, m);
  }

  // ---- The backup area, whatever happens to the checkout ----

  /** Whatever the backup area holds was put there by a journalled removal. */
  lemma {:induction false} BackupsAreJournalled(s0: Store, journal: seq<Action>, k: nat, p: Path)
    requires k <= |journal| && Performed(s0, journal[..k]) && s0.backup == map[]
    ensures var backup := At(s0, journal, k).backup;
      p in backup ==> exists m :: 0 <= m < k && journal[m].kind.Backup? && journal[m].path == p
                        && journal[m].before == Of(backup[p])
    decreases k
  {
    if k > 0 {
      PerformedBy(s0, journal, k - 1);
      ReplayBy(s0, journal, k - 1);
      BackupsAreJournalled(s0, journal, k - 1, p);
      assert journal[k - 1].kind.Backup? && journal[k - 1].path == p ==>
               journal[k - 1].before == Of(At(s0, journal, k).backup[p]);
    }
  }

  /** Wherever apply stops, its backup area matches its journal. */
  lemma StoppedBackupsMatch(s0: Store, journal: seq<Action>, k: nat)
    requires StoppedAt(s0, journal, k) && Paired(journal) && s0.backup == map[]
    ensures BackupsMatch(At(s0, journal, k).backup, journal)
  {
    var backup := At(s0, journal, k).backup;
    forall i | 0 <= i < |journal| && journal[i].kind.Backup? && journal[i].path in backup
      ensures journal[i].before == Of(backup[journal[i].path])
    {
      BackupsAreJournalled(s0, journal, k, journal[i].path);
      var m :| 0 <= m < k && journal[m].kind.Backup? && journal[m].path == journal[i].path
        && journal[m].before == Of(backup[journal[i].path]);
      assert !(m < i) && !(i < m);
    }
  }

  /** What can happen afterwards: any edit of the checkout, or a turn of some rollback,
      which may have been interrupted and started again any number of times. */
  datatype Incident = Edit(files: Files) | Turn(i: nat)

  function Suffer(s: Store, journal: seq<Action>, incident: Incident): Store
    requires WellShapedAll(journal)
  {
    match incident
    case Edit(files) => s.(files := files)
    case Turn(i) =>
      if i < |journal| && RewindOne(s, journal[i]).Some? then RewindOne(s, journal[i]).value else s
  }

  function SufferAll(s: Store, journal: seq<Action>, incidents: seq<Incident>): Store
    requires WellShapedAll(journal)
  {
    if incidents == [] then s
    else Suffer(SufferAll(s, journal, incidents[..|incidents| - 1]), journal, incidents[|incidents| - 1])
  }

  lemma TurnKeepsBackups(s: Store, journal: seq<Action>, a: Action)
    requires WellShaped(a) && RewindOne(s, a).Some? && BackupsMatch(s.backup, journal)
    ensures BackupsMatch(RewindOne(s, a).value.backup, journal)
  {
    var t := RewindOne(s, a).value;
    assert t.backup == s.backup || t.backup == s.backup - {a.path};
  }

  lemma {:induction false} BackupsKeepMatching(s: Store, journal: seq<Action>, incidents: seq<Incident>)
    requires WellShapedAll(journal) && BackupsMatch(s.backup, journal)
    ensures BackupsMatch(SufferAll(s, journal, incidents).backup, journal)
  {
    if incidents != [] {
      var t, last := SufferAll(s, journal, incidents[..|incidents| - 1]), incidents[|incidents| - 1];
      BackupsKeepMatching(s, journal, incidents[..|incidents| - 1]);
      if last.Turn? && last.i < |journal| && RewindOne(t, journal[last.i]).Some? {
        TurnKeepsBackups(t, journal, journal[last.i]);
      }
    }
  }

  /** For a journal written by apply, wherever it stopped and whatever edits, rollbacks and
      interruptions came in between, a rollback only ever moves a path from an action's
      after-entry to that action's before-entry. */
  lemma RollbackOnlyUndoes(s0: Store, journal: seq<Action>, k: nat, incidents: seq<Incident>)
    requires StoppedAt(s0, journal, k) && Paired(journal) && s0.backup == map[]
    ensures WellShapedAll(journal)
    ensures var s := SufferAll(At(s0, journal, k), journal, incidents);
      OnlyUndone(s.files, journal, Rewind(s, journal).1.files)
  {
    StoppedJournalIsShaped(s0, journal, k);
    StoppedBackupsMatch(s0, journal, k);
    BackupsKeepMatching(At(s0, journal, k), journal, incidents);
    RewindOnlyUndoes(SufferAll(At(s0, journal, k), journal, incidents), journal);
  }

  lemma StoppedJournalIsShaped(s0: Store, journal: seq<Action>, k: nat)
    requires StoppedAt(s0, journal, k)
    ensures WellShapedAll(journal)
  {
    ReplayIsTree(s0, journal[..k]);
    assert forall i :: 0 <= i < k ==> journal[..k][i] == journal[i];
  }

  /** The failing case occurs: one modified file, whose rollback was interrupted after its
      last step, is reported as not restored although it is. */
  lemma RestartCanFail()
    ensures
      var was, now := File(6, "a", 1), File(6, "b", 1);
      var s0 := Store(map[["f"] := was], map[]);
      var journal := [Action(Backup, ["f"], Of(was), Absent), Action(Install, ["f"], Absent, Of(now))];
      && Performed(s0, journal) && Paired(journal) && WellShapedAll(journal)
      && At(s0, journal, 0) == s0
      && !Rewind(s0, journal).0
  {
    var was, now := File(6, "a", 1), File(6, "b", 1);
    var s0 := Store(map[["f"] := was], map[]);
    var a, b := Action(Backup, ["f"], Of(was), Absent), Action(Install, ["f"], Absent, Of(now));
    var journal := [a, b];
    assert was.digest[0] != now.digest[0];
    assert journal[..1] == [a] && [a][..0] == [];
    assert Replay(s0, [a]) == After(s0, a);
    assert Act(s0, a) == Some(After(s0, a));
    assert Performed(s0, [a]);
    var s1 := After(s0, a);
    assert Replay(s0, journal) == After(s1, b);
    assert Act(s1, b) == Some(After(s1, b));
  }
}
