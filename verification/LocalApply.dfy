/** The apply loops, `safeAncestors` and `rollback` as they run on the checkout, with the
    process dying after any number of durable writes. */
module LocalApply {
  import opened CheckoutTree
  import opened LocalJournal
  import opened LocalRestart
  import opened LocalPlan
  import opened LocalFeasible
  import opened Wrappers

  datatype Progress = Done | Refused | Crashed

  /** Every file or link still to be installed is staged as proposed. */
  ghost predicate Staged(stage: Files, muts: Proposal, construct: seq<Path>, j: nat) {
    forall i :: j <= i < |construct| ==>
      Builds(muts, construct[i]) && !muts[construct[i]].node.Directory? ==>
        construct[i] in stage && stage[construct[i]] == muts[construct[i]].node
  }

  /** What apply journals: only paths of the patch, each as a removal, a construction, or
      a removal followed by a construction. */
  ghost predicate Tidy(journal: seq<Action>, muts: Proposal) {
    Paired(journal) && forall i :: 0 <= i < |journal| ==> journal[i].path in muts
  }

  class JournalledCheckout {
    var files: Files
    var backup: Files
    var stage: Files
    var actions: seq<Action>

    constructor (checkout: Files, staged: Files)
      ensures files == checkout && stage == staged && backup == map[] && actions == []
    {
      files, stage, backup, actions := checkout, staged, map[], [];
    }

    ghost function State(): Store
      reads this
    {
      Store(files, backup)
    }

    /** No ancestor of the path is a symbolic link or a file. */
    method SafeAncestors(path: Path) returns (safe: bool)
      ensures safe <==> !NonDirectoryAbove(files, path)
    {
      var index := 1;
      while index < |path|
        invariant 1 <= index
        invariant forall i :: 0 < i < index && i < |path| ==>
                    !(path[..i] in files && !files[path[..i]].Directory?)
      {
        var ancestor := path[..index];
        if ancestor in files && !files[ancestor].Directory? {
          return false;
        }
        index := index + 1;
      }
      return true;
    }

    /** The file-system call of an intent. */
    method ActOn(a: Action) returns (ok: bool)
      requires WellShaped(a) && Lstat(files, a.path) == Found(a.before)
      requires a.kind.Install? ==> a.path in stage && stage[a.path] == a.after.node
      modifies this`files, this`backup, this`stage
      ensures ok <==> Act(old(State()), a).Some?
      ensures State() == if ok then Act(old(State()), a).value else old(State())
      ensures stage == if ok && a.kind.Install? then old(stage) - {a.path} else old(stage)
    {
      var changed := match a.kind
        case Backup => MoveOut(files, a.path)
        case RemoveDirectory => Rmdir(files, a.path)
        case MakeDirectory => Mkdir(files, a.path, a.after.node.mode)
        case Install => MoveIn(files, a.path, stage)
        case ChangeMode => Chmod(files, a.path, a.after.node.mode);
      if changed.None? { return false; }
      if a.kind.Backup? {
        backup := backup[a.path := files[a.path]];
      } else if a.kind.Install? {
        stage := stage - {a.path};
      }
      files := changed.value;
      ok := true;
    }

    /** Checks the path, journals the intent, then acts.  `budget` is the number of durable
        writes, intents and actions alike, before the process dies. */
    method Perform(a: Action, budget: nat, ghost s0: Store) returns (progress: Progress, left: nat)
      requires WellShaped(a)
      requires a.kind.Install? ==> a.path in stage && stage[a.path] == a.after.node
      requires a.kind.Backup? ==> a.path !in backup
      requires Performed(s0, actions) && State() == Replay(s0, actions)
      modifies this
      ensures progress.Done? ==> actions == old(actions) + [a]
      ensures progress.Done? ==> Performed(s0, actions) && State() == Replay(s0, actions)
      ensures actions == old(actions) || actions == old(actions) + [a]
      ensures Stopped(s0, actions, State())
      ensures progress.Refused? ==> !Performed(s0, old(actions) + [a])
      ensures progress.Crashed? ==> budget < 2
      ensures progress.Done? ==> left == budget - 2
      ensures stage == if progress.Done? && a.kind.Install? then old(stage) - {a.path} else old(stage)
    {
      PerformedWith(s0, actions, a);
      left := budget;
      if Lstat(files, a.path) != Found(a.before) {
        return Refused, left;
      }
      if left == 0 { return Crashed, 0; }
      actions := actions + [a];
      left := left - 1;
      if left == 0 { return Crashed, 0; }
      var ok := ActOn(a);
      if !ok {
        return Refused, left;
      }
      left := left - 1;
      progress := Done;
    }

    /** The removal loop. */
    method RemoveAll(target: Files, ghost muts: Proposal, remove: seq<Path>, ghost kept: seq<Path>,
                     budget: nat, ghost s0: Store)
      returns (progress: Progress, left: nat)
      requires Ready(target, muts, remove, kept)
      requires IsTree(files) && backup == map[] && actions == [] && State() == s0
      modifies this
      ensures Stopped(s0, actions, State())
      ensures stage == old(stage)
      ensures progress.Done? ==> actions == Intents(target, muts, remove, kept)[..|remove|]
      ensures progress.Done? ==> Performed(s0, actions) && State() == Replay(s0, actions)
      ensures progress.Done? ==> left + 2 * |remove| == budget
      ensures !progress.Done? ==> Tidy(actions, muts)
      ensures progress.Refused? ==> !Performed(s0, Intents(target, muts, remove, kept))
      ensures progress.Crashed? ==> budget < 2 * |remove|
    {
      ghost var journal := Intents(target, muts, remove, kept);
      left := budget;
      var i := 0;
      while i < |remove|
        invariant 0 <= i <= |remove|
        invariant actions == journal[..i]
        invariant Performed(s0, actions) && State() == Replay(s0, actions)
        invariant stage == old(stage)
        invariant left + 2 * i == budget
      {
        NextRemoval(s0, target, muts, remove, kept, i);
        progress, left := Perform(RemovalOf(target, remove[i]), left, s0);
        if !progress.Done? {
          StoppedWithin(s0, target, muts, remove, kept, i);
          return;
        }
        i := i + 1;
      }
      progress := Done;
    }

    /** The first `k` intents of the journal are written and carried out. */
    ghost predicate DoneUpTo(journal: seq<Action>, k: nat, s0: Store)
      reads this
    {
      && k <= |journal| && actions == journal[..k]
      && Performed(s0, actions) && State() == Replay(s0, actions)
    }

    /** One turn of the construction loop, for the `k`th intent of the journal unless the
        path is skipped. */
    method ConstructOne(target: Files, muts: Proposal, p: Path, ghost journal: seq<Action>, ghost k: nat,
                        budget: nat, ghost s0: Store)
      returns (progress: Progress, left: nat)
      requires Builds(muts, p) && DoneUpTo(journal, k, s0)
      requires !Skips(target, muts, p) ==>
                 k < |journal| && journal[k] == ConstructionOf(target, muts, p) && WellShaped(journal[k])
      requires !Skips(target, muts, p) && !muts[p].node.Directory? ==> p in stage && stage[p] == muts[p].node
      modifies this
      ensures Stopped(s0, actions, State())
      ensures progress.Done? ==> DoneUpTo(journal, if Skips(target, muts, p) then k else k + 1, s0)
      ensures progress.Done? ==> left + 2 >= budget && (stage == old(stage) || stage == old(stage) - {p})
      ensures !progress.Done? ==> !Skips(target, muts, p) && (actions == journal[..k] || actions == journal[..k + 1])
      ensures progress.Refused? ==> !Performed(s0, journal[..k + 1])
      ensures progress.Crashed? ==> budget < 2
    {
      if Skips(target, muts, p) {
        return Done, budget;
      }
      assert journal[..k + 1] == journal[..k] + [journal[k]];
      progress, left := Perform(ConstructionOf(target, muts, p), budget, s0);
    }

    /** The `j`th turn of the construction loop; `k` intents are done before it and `next`
        after it. */
    method ConstructTurn(target: Files, muts: Proposal, ghost remove: seq<Path>, construct: seq<Path>, j: nat,
                         ghost kept: seq<Path>, ghost journal: seq<Action>, ghost k: nat, budget: nat, ghost s0: Store)
      returns (progress: Progress, left: nat, ghost next: nat)
      requires Mutations(target, muts) && Arranged(target, muts, remove, construct) && j < |construct|
      requires kept == Kept(target, muts, construct) && journal == Intents(target, muts, remove, kept)
      requires k == |remove| + |Kept(target, muts, construct[..j])|
      requires DoneUpTo(journal, k, s0) && Staged(stage, muts, construct, j)
      modifies this
      ensures Stopped(s0, actions, State())
      ensures next == |remove| + |Kept(target, muts, construct[..j + 1])|
      ensures progress.Done? ==> DoneUpTo(journal, next, s0) && Staged(stage, muts, construct, j + 1)
      ensures progress.Done? ==> left + 2 >= budget
      ensures !progress.Done? ==> Tidy(actions, muts)
      ensures progress.Refused? ==> !Performed(s0, journal)
      ensures progress.Crashed? ==> budget < 2
    {
      NextConstruction(target, muts, remove, construct, j, kept, k);
      StagedAfter(stage, muts, construct, j);
      next := if Skips(target, muts, construct[j]) then k else k + 1;
      progress, left := ConstructOne(target, muts, construct[j], journal, k, budget, s0);
      if !progress.Done? {
        StoppedConstructing(s0, target, muts, remove, construct, j, kept, k);
      }
    }

    /** The construction loop. */
    method ConstructAll(target: Files, muts: Proposal, ghost remove: seq<Path>, construct: seq<Path>,
                        budget: nat, ghost s0: Store)
      returns (progress: Progress)
      requires Mutations(target, muts) && Arranged(target, muts, remove, construct)
      requires DoneUpTo(Intents(target, muts, remove, Kept(target, muts, construct)), |remove|, s0)
      requires Staged(stage, muts, construct, 0)
      modifies this
      ensures Stopped(s0, actions, State())
      ensures var journal := Intents(target, muts, remove, Kept(target, muts, construct));
              && (progress.Done? ==> actions == journal && Performed(s0, journal) && State() == Replay(s0, journal))
              && (progress.Refused? ==> !Performed(s0, journal))
      ensures Tidy(actions, muts)
      ensures progress.Crashed? ==> budget < 2 * |construct|
    {
      ghost var kept := Kept(target, muts, construct);
      ghost var journal := Intents(target, muts, remove, kept);
      ghost var k := |remove|;
      var left: nat := budget;
      var j := 0;
      assert construct[..0] == [];
      while j < |construct|
        invariant 0 <= j <= |construct| && k == |remove| + |Kept(target, muts, construct[..j])|
        invariant DoneUpTo(journal, k, s0) && Staged(stage, muts, construct, j)
        invariant left + 2 * j >= budget
      {
        progress, left, k := ConstructTurn(target, muts, remove, construct, j, kept, journal, k, left, s0);
        if !progress.Done? { return; }
        j := j + 1;
      }
      assert construct[..j] == construct && journal[..k] == journal;
      WholeJournalTidy(target, muts, remove, construct);
      progress := Done;
    }

    /** Both loops, dying after `crashAfter` writes. */
    method Apply(target: Files, muts: Proposal, remove: seq<Path>, construct: seq<Path>, crashAfter: nat)
      returns (progress: Progress)
      requires IsTree(files) && backup == map[] && actions == []
      requires Mutations(target, muts) && Arranged(target, muts, remove, construct)
      requires Staged(stage, muts, construct, 0)
      modifies this
      ensures Stopped(old(State()), actions, State())
      ensures Tidy(actions, muts) && BackupsMatch(backup, actions)
      ensures progress.Done? ==> Feasible(old(files), target, muts)
      ensures progress.Done? ==> files == Overlay(old(files), target, muts)
      ensures progress.Refused? ==> !Feasible(old(files), target, muts)
      ensures progress.Crashed? ==> crashAfter < 2 * (|remove| + |construct|)
    {
      ghost var s0 := State();
      ArrangedIsReady(target, muts, remove, construct);
      AppliesExactlyWhenFeasible(s0, target, muts, remove, construct);
      var left: nat;
      progress, left := RemoveAll(target, muts, remove, Kept(target, muts, construct), crashAfter, s0);
      if progress.Done? {
        progress := ConstructAll(target, muts, remove, construct, left, s0);
      }
      ApplyLeavesBackups(s0, actions, State());
    }

    /** A whole application.  Wherever the loops stop, and also when the finished checkout
        is not accepted as the planned one, the rollback reports success and the checkout,
        with everything outside the patch, is exactly as before. */
    method ApplyOrRestore(target: Files, muts: Proposal, remove: seq<Path>, construct: seq<Path>,
                          crashAfter: nat, accepted: bool)
      returns (applied: bool, restored: bool)
      requires IsTree(files) && backup == map[] && actions == []
      requires Mutations(target, muts) && Arranged(target, muts, remove, construct)
      requires Staged(stage, muts, construct, 0)
      requires forall p :: p in muts ==> !NonDirectoryAbove(files, p)
      modifies this
      ensures applied ==> files == Overlay(old(files), target, muts)
      ensures !applied ==> restored && files == old(files)
      ensures applied ==> Feasible(old(files), target, muts) && accepted
      ensures crashAfter >= 2 * (|remove| + |construct|) && accepted ==>
                (applied <==> Feasible(old(files), target, muts))
    {
      ghost var s0 := State();
      var progress := Apply(target, muts, remove, construct, crashAfter);
      if progress.Done? && accepted {
        return true, false;
      }
      StoppedIsWellShaped(s0, actions, State());
      restored := Rollback(s0);
      applied := false;
    }

    /** Walks the journal backwards, undoing what is in place, then compares every
        journalled path with its first before-entry.  `s0` is any candidate for the state
        before apply: from every state apply can stop in, it is restored exactly.  With a
        backup area as apply leaves it, and rollbacks keep it, only recorded changes are
        undone, whatever the checkout holds. */
    method Rollback(ghost s0: Store) returns (restored: bool)
      requires WellShapedAll(actions)
      modifies this`files, this`backup
      ensures State() == Rewind(old(State()), actions).1
      ensures restored <==> Rewind(old(State()), actions).0 && Restored(files, actions)
      ensures BackupsMatch(old(backup), actions) ==>
                OnlyUndone(old(files), actions, files) && BackupsMatch(backup, actions)
      ensures Stopped(s0, actions, old(State())) && AncestorsSafe(s0.files, actions) ==>
                restored && State() == s0
    {
      ghost var s := State();
      RewindPromises(s0, s, actions);
      var i := |actions|;
      assert actions[..i] == actions;
      while i > 0
        invariant 0 <= i <= |actions|
        invariant Rewind(State(), actions[..i]) == Rewind(s, actions)
        invariant BackupsMatch(old(backup), actions) ==> BackupsMatch(backup, actions)
      {
        RewindBy(State(), actions, i - 1);
        KeepsBackups(State(), actions, actions[i - 1]);
        var ok := UndoOne(actions[i - 1]);
        if !ok { return false; }
        i := i - 1;
      }
      restored := CheckOriginals();
    }

    /** One turn of the reverse walk. */
    method UndoOne(a: Action) returns (ok: bool)
      requires WellShaped(a)
      modifies this`files, this`backup
      ensures ok <==> RewindOne(old(State()), a).Some?
      ensures State() == if ok then RewindOne(old(State()), a).value else old(State())
    {
      var current := Lstat(files, a.path);
      if current.Blocked? { return false; }
      if current.entry == a.before { return true; }
      if current.entry != a.after { return false; }
      var changed := match a.kind
        case Install => MoveOut(files, a.path)
        case MakeDirectory => Rmdir(files, a.path)
        case ChangeMode => Chmod(files, a.path, a.before.node.mode)
        case RemoveDirectory => Mkdir(files, a.path, a.before.node.mode)
        case Backup => MoveIn(files, a.path, backup);
      if changed.None? { return false; }
      files := changed.value;
      if a.kind.Backup? {
        backup := backup - {a.path};
      }
      ok := true;
    }

    method CheckOriginals() returns (same: bool)
      ensures same <==> Restored(files, actions)
    {
      var original: map<Path, Entry> := map[];
      var i := 0;
      while i < |actions|
        invariant 0 <= i <= |actions|
        invariant forall p :: p in original <==> Journals(actions[..i], p)
        invariant forall p :: p in original ==> original[p] == FirstBefore(actions[..i], p)
      {
        var a := actions[i];
        ghost var next := actions[..i + 1];
        assert next[..i] == actions[..i];
        forall p ensures Journals(next, p) <==> Journals(actions[..i], p) || a.path == p {
          JournalsByLast(next, p);
        }
        if a.path !in original {
          original := original[a.path := a.before];
        }
        i := i + 1;
      }
      assert actions[..i] == actions;
      var paths := original.Keys;
      while paths != {}
        invariant paths <= original.Keys
        invariant forall p :: p in original && p !in paths ==> Lstat(files, p) == Found(original[p])
        decreases |paths|
      {
        var p :| p in paths;
        if Lstat(files, p) != Found(original[p]) {
          return false;
        }
        paths := paths - {p};
      }
      return true;
    }
  }

  /** What the reverse walk achieves, from a state apply stopped in and from any state. */
  lemma RewindPromises(s0: Store, s: Store, journal: seq<Action>)
    requires WellShapedAll(journal)
    ensures BackupsMatch(s.backup, journal) ==> OnlyUndone(s.files, journal, Rewind(s, journal).1.files)
    ensures Stopped(s0, journal, s) && AncestorsSafe(s0.files, journal) ==>
              Rewind(s, journal) == (true, s0) && Restored(s0.files, journal)
  {
    if Stopped(s0, journal, s) && AncestorsSafe(s0.files, journal) {
      RollbackRestores(s0, journal, s);
    }
    if BackupsMatch(s.backup, journal) {
      RewindOnlyUndoes(s, journal);
    }
  }

  lemma KeepsBackups(s: Store, journal: seq<Action>, a: Action)
    requires WellShaped(a)
    ensures BackupsMatch(s.backup, journal) && RewindOne(s, a).Some? ==>
              BackupsMatch(RewindOne(s, a).value.backup, journal)
  {
    if BackupsMatch(s.backup, journal) && RewindOne(s, a).Some? {
      TurnKeepsBackups(s, journal, a);
    }
  }

  lemma ApplyLeavesBackups(s0: Store, journal: seq<Action>, s: Store)
    requires Stopped(s0, journal, s) && Paired(journal) && s0.backup == map[]
    ensures BackupsMatch(s.backup, journal)
  {
    assert journal[..|journal|] == journal;
    if Performed(s0, journal) && s == Replay(s0, journal) {
      StoppedBackupsMatch(s0, journal, |journal|);
    } else {
      StoppedBackupsMatch(s0, journal, |journal| - 1);
    }
  }

  lemma StoppedIsWellShaped(s0: Store, journal: seq<Action>, s: Store)
    requires Stopped(s0, journal, s)
    ensures WellShapedAll(journal)
  {
    if Performed(s0, journal) {
      ReplayIsTree(s0, journal);
    } else {
      var rest := journal[..|journal| - 1];
      ReplayIsTree(s0, rest);
      assert forall i :: 0 <= i < |rest| ==> journal[i] == rest[i];
    }
  }

  lemma NextRemoval(s0: Store, target: Files, muts: Proposal, remove: seq<Path>, kept: seq<Path>, i: nat)
    requires Ready(target, muts, remove, kept) && s0.backup == map[] && i < |remove|
    ensures var journal := Intents(target, muts, remove, kept);
            && WellShaped(RemovalOf(target, remove[i]))
            && journal[..i + 1] == journal[..i] + [RemovalOf(target, remove[i])]
            && remove[i] !in At(s0, journal, i).backup
  {
    IntentsWellShaped(target, muts, remove, kept, i);
    if remove[i] in At(s0, Intents(target, muts, remove, kept), i).backup {
      BackupBefore(s0, target, muts, remove, kept, i, remove[i]);
      assert false;
    }
  }

  /** The kept constructions of a prefix are a prefix of the kept constructions. */
  lemma {:induction false} KeptPrefix(target: Files, muts: Proposal, construct: seq<Path>, j: nat)
    requires j <= |construct|
    ensures Kept(target, muts, construct[..j]) <= Kept(target, muts, construct)
    decreases |construct| - j
  {
    if j == |construct| {
      assert construct[..j] == construct;
    } else {
      KeptPrefix(target, muts, construct, j + 1);
      assert construct[..j + 1][..j] == construct[..j];
    }
  }

  /** What one more intent makes of the journal and the states apply can stop in. */
  lemma PerformedWith(s0: Store, journal: seq<Action>, a: Action)
    requires Performed(s0, journal) && WellShaped(a)
    requires a.kind.Backup? ==> a.path !in Replay(s0, journal).backup
    ensures var s := Replay(s0, journal);
            && Stopped(s0, journal, s)
            && (Lstat(s.files, a.path) == Found(a.before) ==> Stopped(s0, journal + [a], s))
            && (Performed(s0, journal + [a]) ==> Lstat(s.files, a.path) == Found(a.before) && Act(s, a).Some?)
            && (Lstat(s.files, a.path) == Found(a.before) && Act(s, a).Some? ==>
                  && Performed(s0, journal + [a]) && Act(s, a).value == Replay(s0, journal + [a])
                  && Stopped(s0, journal + [a], Act(s, a).value))
  {
    assert (journal + [a])[..|journal|] == journal;
    ReplayIsTree(s0, journal);
    if Lstat(Replay(s0, journal).files, a.path) == Found(a.before) && Act(Replay(s0, journal), a).Some? {
      ActKeepsTree(Replay(s0, journal), a);
    }
  }

  /** Installing one file leaves the others staged. */
  lemma StagedAfter(stage: Files, muts: Proposal, construct: seq<Path>, j: nat)
    requires j < |construct| && Distinct(construct) && Staged(stage, muts, construct, j)
    ensures Staged(stage, muts, construct, j + 1) && Staged(stage - {construct[j]}, muts, construct, j + 1)
  {
  }

  lemma KeptNext(target: Files, muts: Proposal, construct: seq<Path>, j: nat)
    requires j < |construct|
    ensures var kept := Kept(target, muts, construct);
            var now, next := Kept(target, muts, construct[..j]), Kept(target, muts, construct[..j + 1]);
            && |now| <= |next| <= |kept|
            && (Skips(target, muts, construct[j]) ==> next == now)
            && (!Skips(target, muts, construct[j]) ==> |next| == |now| + 1 && kept[|now|] == construct[j])
  {
    var now, next := Kept(target, muts, construct[..j]), Kept(target, muts, construct[..j + 1]);
    assert construct[..j + 1][..j] == construct[..j];
    KeptPrefix(target, muts, construct, j);
    KeptPrefix(target, muts, construct, j + 1);
    if !Skips(target, muts, construct[j]) {
      assert next == now + [construct[j]] && next[|now|] == construct[j];
    }
  }

  lemma NextConstruction(target: Files, muts: Proposal, remove: seq<Path>, construct: seq<Path>, j: nat,
                         kept: seq<Path>, k: nat)
    requires Mutations(target, muts) && Arranged(target, muts, remove, construct) && j < |construct|
    requires kept == Kept(target, muts, construct) && k == |remove| + |Kept(target, muts, construct[..j])|
    ensures Builds(muts, construct[j])
    ensures var journal := Intents(target, muts, remove, kept);
            var next := |remove| + |Kept(target, muts, construct[..j + 1])|;
            if Skips(target, muts, construct[j]) then next == k
            else k < |journal| && journal[k] == ConstructionOf(target, muts, construct[j]) && WellShaped(journal[k])
                 && next == k + 1
  {
    KeptNext(target, muts, construct, j);
    assert construct[j] in construct;
    if !Skips(target, muts, construct[j]) {
      ArrangedIsReady(target, muts, remove, construct);
      IntentsWellShaped(target, muts, remove, kept, k);
    }
  }

  lemma StoppedConstructing(s0: Store, target: Files, muts: Proposal, remove: seq<Path>, construct: seq<Path>, j: nat,
                            kept: seq<Path>, k: nat)
    requires Mutations(target, muts) && Arranged(target, muts, remove, construct)
    requires j < |construct| && !Skips(target, muts, construct[j])
    requires kept == Kept(target, muts, construct) && k == |remove| + |Kept(target, muts, construct[..j])|
    ensures var journal := Intents(target, muts, remove, kept);
            && k < |journal| && Tidy(journal[..k], muts) && Tidy(journal[..k + 1], muts)
            && (Performed(s0, journal) ==> Performed(s0, journal[..k + 1]))
  {
    assert k < |remove| + |kept| by {
      KeptNext(target, muts, construct, j);
    }
    assert Ready(target, muts, remove, kept) by {
      ArrangedIsReady(target, muts, remove, construct);
    }
    StoppedWithin(s0, target, muts, remove, kept, k);
  }

  lemma PrefixIsTidy(target: Files, muts: Proposal, remove: seq<Path>, kept: seq<Path>, k: nat)
    requires Ready(target, muts, remove, kept) && k <= |remove| + |kept|
    ensures Tidy(Intents(target, muts, remove, kept)[..k], muts)
  {
    var journal := Intents(target, muts, remove, kept);
    IntentsPaired(target, muts, remove, kept);
    forall i | 0 <= i < k ensures journal[i].path in muts {
      if i < |remove| {
        assert remove[i] in remove;
      } else {
        assert kept[i - |remove|] in kept;
      }
    }
  }

  lemma WholeJournalTidy(target: Files, muts: Proposal, remove: seq<Path>, construct: seq<Path>)
    requires Mutations(target, muts) && Arranged(target, muts, remove, construct)
    ensures Tidy(Intents(target, muts, remove, Kept(target, muts, construct)), muts)
  {
    var kept := Kept(target, muts, construct);
    var journal := Intents(target, muts, remove, kept);
    ArrangedIsReady(target, muts, remove, construct);
    PrefixIsTidy(target, muts, remove, kept, |journal|);
    assert journal[..|journal|] == journal;
  }

  lemma StoppedWithin(s0: Store, target: Files, muts: Proposal, remove: seq<Path>, kept: seq<Path>, k: nat)
    requires Ready(target, muts, remove, kept) && k < |remove| + |kept|
    ensures var journal := Intents(target, muts, remove, kept);
            && Tidy(journal[..k], muts) && Tidy(journal[..k + 1], muts)
            && (Performed(s0, journal) ==> Performed(s0, journal[..k + 1]))
  {
    var journal := Intents(target, muts, remove, kept);
    PrefixIsTidy(target, muts, remove, kept, k);
    PrefixIsTidy(target, muts, remove, kept, k + 1);
    if Performed(s0, journal) {
      PerformedAt(s0, journal, k + 1);
    }
  }
}
