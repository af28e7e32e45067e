/** Deepest-first removal followed by shallowest-first construction goes through exactly
    when the patch fits the checkout, and then yields the checkout overlaid with it. */
module LocalFeasible {
  import opened CheckoutTree
  import opened LocalJournal
  import opened LocalRestart
  import opened LocalPlan
  import opened Wrappers

  /** The removals and the constructions that are actually journalled, in order. */
  ghost predicate Ready(target: Files, muts: Proposal, remove: seq<Path>, kept: seq<Path>) {
    && Mutations(target, muts)
    && (forall p :: p in remove <==> Removes(target, muts, p))
    && (forall p :: p in kept <==> Builds(muts, p) && !Skips(target, muts, p))
    && Distinct(remove) && DeepestFirst(remove)
    && Distinct(kept) && ShallowestFirst(kept)
  }

  lemma ArrangedIsReady(target: Files, muts: Proposal, remove: seq<Path>, construct: seq<Path>)
    requires Mutations(target, muts) && Arranged(target, muts, remove, construct)
    ensures Ready(target, muts, remove, Kept(target, muts, construct))
  {
    forall p ensures p in Kept(target, muts, construct) <==> p in construct && !Skips(target, muts, p) {
      KeptMember(target, muts, construct, p);
    }
    KeptOrder(target, muts, construct);
  }

  lemma IntentsWellShaped(target: Files, muts: Proposal, remove: seq<Path>, kept: seq<Path>, k: nat)
    requires Ready(target, muts, remove, kept)
    requires k < |remove| + |kept|
    ensures WellShaped(Intents(target, muts, remove, kept)[k])
  {
    if k < |remove| {
      assert remove[k] in remove;
    } else {
      assert kept[k - |remove|] in kept;
    }
  }

  lemma IntentsPaired(target: Files, muts: Proposal, remove: seq<Path>, kept: seq<Path>)
    requires Ready(target, muts, remove, kept)
    ensures Paired(Intents(target, muts, remove, kept))
  {
    var journal := Intents(target, muts, remove, kept);
    forall i, j | 0 <= i < j < |journal| && journal[i].path == journal[j].path
      ensures !Constructs(journal[i]) && Constructs(journal[j])
      ensures !(journal[i].kind.RemoveDirectory? && journal[j].kind.MakeDirectory?)
    {
      assert i < |remove| <= j;
      assert remove[i] in remove && kept[j - |remove|] in kept;
    }
  }

  // ---- Feasible patches go through ----

  lemma NotLeftBehind(fs: Files, target: Files, muts: Proposal, q: Path)
    requires Mutations(target, muts) && Feasible(fs, target, muts)
    requires q in fs && !Removes(target, muts, q)
    ensures q in Overlay(fs, target, muts)
  {
    OverlayAt(fs, target, muts, q);
  }

  lemma RemovedIsNoDirectory(fs: Files, target: Files, muts: Proposal, p: Path)
    requires Removes(target, muts, p) && p != [] && target[p].Directory?
    ensures !HoldsDirectory(Overlay(fs, target, muts), p)
  {
    OverlayAt(fs, target, muts, p);
  }

  lemma RemovedDirectoryIsEmpty(s0: Store, target: Files, muts: Proposal,
                                remove: seq<Path>, kept: seq<Path>, k: nat, q: Path)
    requires Ready(target, muts, remove, kept) && Feasible(s0.files, target, muts)
    requires k < |remove| && remove[k] in target && target[remove[k]].Directory?
    requires q != [] && Parent(q) == remove[k]
    ensures q !in At(s0, Intents(target, muts, remove, kept), k).files
  {
    var p := remove[k];
    assert p in remove;
    StateBefore(s0, target, muts, remove, kept, k, q);
    if q !in remove[..k] && q in s0.files {
      assert !Removes(target, muts, q);
      NotLeftBehind(s0.files, target, muts, q);
      RemovedIsNoDirectory(s0.files, target, muts, p);
      assert false;
    }
  }

  lemma RemovalGoesThrough(s0: Store, target: Files, muts: Proposal,
                           remove: seq<Path>, kept: seq<Path>, k: nat)
    requires Ready(target, muts, remove, kept) && Feasible(s0.files, target, muts)
    requires s0.backup == map[] && k < |remove|
    requires IsTree(At(s0, Intents(target, muts, remove, kept), k).files)
    ensures var journal := Intents(target, muts, remove, kept);
            var s := At(s0, journal, k);
            Intended(s, journal[k]) && Act(s, journal[k]) == Some(After(s, journal[k]))
  {
    var journal := Intents(target, muts, remove, kept);
    var s, p := At(s0, journal, k), remove[k];
    assert p in remove;
    IntentsWellShaped(target, muts, remove, kept, k);
    StateBefore(s0, target, muts, remove, kept, k, p);
    assert p !in remove[..k];
    assert EntryOf(s.files, p) == Of(target[p]);
    if p in s.backup {
      BackupBefore(s0, target, muts, remove, kept, k, p);
      assert false;
    }
    if target[p].Directory? {
      forall q | q in s.files && q != [] ensures Parent(q) != p {
        if Parent(q) == p {
          RemovedDirectoryIsEmpty(s0, target, muts, remove, kept, k, q);
          assert false;
        }
      }
    }
    assert s.files - {p} == Put(s.files, p, Absent);
  }

  lemma ParentIsInPlace(s0: Store, target: Files, muts: Proposal,
                        remove: seq<Path>, kept: seq<Path>, k: nat)
    requires Ready(target, muts, remove, kept) && Feasible(s0.files, target, muts)
    requires |remove| <= k < |remove| + |kept|
    ensures var p := kept[k - |remove|];
            p != [] && HoldsDirectory(At(s0, Intents(target, muts, remove, kept), k).files, Parent(p))
  {
    var p := kept[k - |remove|];
    assert p in kept;
    if Parent(p) != [] {
      StateBefore(s0, target, muts, remove, kept, k, Parent(p));
      OverlayAt(s0.files, target, muts, p);
      OverlayAt(s0.files, target, muts, Parent(p));
      assert HoldsDirectory(Overlay(s0.files, target, muts), Parent(p));
      ParentEntryBefore(s0, target, muts, remove, kept, k);
    }
  }

  /** When a path is constructed, its parent is already what the overlay says. */
  lemma ParentEntryBefore(s0: Store, target: Files, muts: Proposal, remove: seq<Path>, kept: seq<Path>, k: nat)
    requires Ready(target, muts, remove, kept) && |remove| <= k < |remove| + |kept|
    requires kept[k - |remove|] != []
    requires var u := Parent(kept[k - |remove|]);
             var e := OverlayEntry(s0.files, target, muts, u); e.Of? && e.node.Directory?
    ensures var u := Parent(kept[k - |remove|]);
            EntryBefore(s0.files, muts, remove, kept, k, u) == OverlayEntry(s0.files, target, muts, u)
  {
    var x := k - |remove|;
    var u := Parent(kept[x]);
    assert remove[..|remove|] == remove;
    if u in muts && !Skips(target, muts, u) {
      assert u in kept;
      var i :| 0 <= i < |kept| && kept[i] == u;
      assert i < x && kept[..x][i] == u;
    } else {
      assert u !in kept && u !in kept[..x];
      assert u !in remove;
    }
  }

  lemma ConstructionGoesThrough(s0: Store, target: Files, muts: Proposal,
                                remove: seq<Path>, kept: seq<Path>, k: nat)
    requires Ready(target, muts, remove, kept) && Feasible(s0.files, target, muts)
    requires |remove| <= k < |remove| + |kept|
    requires IsTree(At(s0, Intents(target, muts, remove, kept), k).files)
    ensures var journal := Intents(target, muts, remove, kept);
            var s := At(s0, journal, k);
            Intended(s, journal[k]) && Act(s, journal[k]) == Some(After(s, journal[k]))
  {
    var journal := Intents(target, muts, remove, kept);
    var x := k - |remove|;
    var s, p := At(s0, journal, k), kept[x];
    assert p in kept;
    IntentsWellShaped(target, muts, remove, kept, k);
    ParentIsInPlace(s0, target, muts, remove, kept, k);
    LstatUnderDirectory(s.files, p);
    StateBefore(s0, target, muts, remove, kept, k, p);
    assert p !in kept[..x];
    assert remove[..|remove|] == remove;
    assert EntryOf(s.files, p) == journal[k].before;
  }

  /** A feasible patch gets through its next intent. */
  lemma NextGoesThrough(s0: Store, target: Files, muts: Proposal, remove: seq<Path>, kept: seq<Path>, k: nat)
    requires Ready(target, muts, remove, kept) && Feasible(s0.files, target, muts)
    requires s0.backup == map[] && k < |remove| + |kept|
    requires IsTree(At(s0, Intents(target, muts, remove, kept), k).files)
    ensures var journal := Intents(target, muts, remove, kept);
            var s := At(s0, journal, k);
            Intended(s, journal[k]) && Act(s, journal[k]) == Some(After(s, journal[k]))
  {
    if k < |remove| {
      RemovalGoesThrough(s0, target, muts, remove, kept, k);
    } else {
      ConstructionGoesThrough(s0, target, muts, remove, kept, k);
    }
  }

  lemma PerformedOnce(s0: Store, journal: seq<Action>, k: nat)
    requires k < |journal| && Performed(s0, journal[..k])
    requires var s := At(s0, journal, k); Intended(s, journal[k]) && Act(s, journal[k]) == Some(After(s, journal[k]))
    ensures Performed(s0, journal[..k + 1])
  {
    assert journal[..k + 1][..k] == journal[..k];
  }

  lemma {:induction false} FeasibleIsPerformed(s0: Store, target: Files, muts: Proposal,
                                               remove: seq<Path>, kept: seq<Path>, k: nat)
    requires Ready(target, muts, remove, kept) && Feasible(s0.files, target, muts)
    requires IsTree(s0.files) && s0.backup == map[]
    requires k <= |remove| + |kept|
    ensures Performed(s0, Intents(target, muts, remove, kept)[..k])
  {
    if k > 0 {
      var journal := Intents(target, muts, remove, kept);
      FeasibleIsPerformed(s0, target, muts, remove, kept, k - 1);
      ReplayIsTree(s0, journal[..k - 1]);
      NextGoesThrough(s0, target, muts, remove, kept, k - 1);
      PerformedOnce(s0, journal, k - 1);
    }
  }

  // ---- Only feasible patches go through ----

  lemma ResultIsOverlay(s0: Store, target: Files, muts: Proposal, remove: seq<Path>, kept: seq<Path>)
    requires Ready(target, muts, remove, kept)
    ensures Replay(s0, Intents(target, muts, remove, kept)).files == Overlay(s0.files, target, muts)
  {
    var journal := Intents(target, muts, remove, kept);
    var n := |journal|;
    assert journal[..n] == journal;
    assert remove[..|remove|] == remove && kept[..|kept|] == kept;
    var result, overlay := Replay(s0, journal).files, Overlay(s0.files, target, muts);
    forall q ensures EntryOf(result, q) == EntryOf(overlay, q) {
      StateBefore(s0, target, muts, remove, kept, n, q);
      OverlayAt(s0.files, target, muts, q);
    }
    forall q | q in result ensures q in overlay && result[q] == overlay[q] {
      assert EntryOf(result, q) == EntryOf(overlay, q);
    }
    forall q | q in overlay ensures q in result {
      assert EntryOf(result, q) == EntryOf(overlay, q);
    }
  }

  lemma PerformedChecksRemoval(s0: Store, target: Files, muts: Proposal,
                               remove: seq<Path>, kept: seq<Path>, k: nat)
    requires Ready(target, muts, remove, kept) && k < |remove|
    requires Performed(s0, Intents(target, muts, remove, kept))
    ensures EntryOf(s0.files, remove[k]) == EntryOf(target, remove[k])
  {
    PerformedAt(s0, Intents(target, muts, remove, kept), k);
    StateBefore(s0, target, muts, remove, kept, k, remove[k]);
    assert remove[k] !in remove[..k];
  }

  lemma PerformedChecksConstruction(s0: Store, target: Files, muts: Proposal,
                                    remove: seq<Path>, kept: seq<Path>, x: nat)
    requires Ready(target, muts, remove, kept) && x < |kept|
    requires Performed(s0, Intents(target, muts, remove, kept))
    requires kept[x] !in remove
    ensures EntryOf(s0.files, kept[x]) == ConstructionOf(target, muts, kept[x]).before
  {
    var k := |remove| + x;
    PerformedAt(s0, Intents(target, muts, remove, kept), k);
    StateBefore(s0, target, muts, remove, kept, k, kept[x]);
    assert kept[x] !in kept[..x] && remove[..|remove|] == remove;
  }

  lemma PerformedChecksEntry(s0: Store, target: Files, muts: Proposal,
                             remove: seq<Path>, kept: seq<Path>, p: Path)
    requires Ready(target, muts, remove, kept)
    requires Performed(s0, Intents(target, muts, remove, kept))
    ensures Removes(target, muts, p) ==> EntryOf(s0.files, p) == EntryOf(target, p)
    ensures InPlace(target, muts, p) && !Skips(target, muts, p) ==>
              EntryOf(s0.files, p) == EntryOf(target, p)
    ensures Builds(muts, p) && p !in target ==> p !in s0.files
  {
    if Removes(target, muts, p) {
      var k :| 0 <= k < |remove| && remove[k] == p;
      PerformedChecksRemoval(s0, target, muts, remove, kept, k);
    } else if p in kept {
      var x :| 0 <= x < |kept| && kept[x] == p;
      PerformedChecksConstruction(s0, target, muts, remove, kept, x);
    }
  }

  /** The apply loops go through if and only if the patch fits the checkout, and then the
      checkout is the overlay: no path outside the patch has changed. */
  lemma AppliesExactlyWhenFeasible(s0: Store, target: Files, muts: Proposal,
                                   remove: seq<Path>, construct: seq<Path>)
    requires IsTree(s0.files) && s0.backup == map[]
    requires Mutations(target, muts) && Arranged(target, muts, remove, construct)
    ensures var journal := Intents(target, muts, remove, Kept(target, muts, construct));
            && (Performed(s0, journal) <==> Feasible(s0.files, target, muts))
            && Replay(s0, journal).files == Overlay(s0.files, target, muts)
            && Paired(journal)
  {
    var kept := Kept(target, muts, construct);
    var journal := Intents(target, muts, remove, kept);
    ArrangedIsReady(target, muts, remove, construct);
    ResultIsOverlay(s0, target, muts, remove, kept);
    IntentsPaired(target, muts, remove, kept);
    assert journal[..|journal|] == journal;
    if Feasible(s0.files, target, muts) {
      FeasibleIsPerformed(s0, target, muts, remove, kept, |journal|);
    }
    if Performed(s0, journal) {
      ReplayIsTree(s0, journal);
      forall p {
        PerformedChecksEntry(s0, target, muts, remove, kept, p);
      }
    }
  }

  /** In particular, when the listing is the whole checkout and the planned manifest holds
      every entry inside a directory, apply cannot meet a non-empty directory or a missing
      parent, and ends with the planned manifest. */
  lemma WholeListingApplies(s0: Store, muts: Proposal, remove: seq<Path>, construct: seq<Path>, planned: Files)
    requires IsTree(s0.files) && s0.backup == map[]
    requires Mutations(s0.files, muts) && Arranged(s0.files, muts, remove, construct)
    requires forall p :: EntryOf(planned, p) == if p in muts then muts[p] else EntryOf(s0.files, p)
    requires IsTree(planned)
    ensures var journal := Intents(s0.files, muts, remove, Kept(s0.files, muts, construct));
            Performed(s0, journal) && Replay(s0, journal).files == planned
  {
    var overlay := Overlay(s0.files, s0.files, muts);
    forall p ensures EntryOf(overlay, p) == EntryOf(planned, p) {
      OverlayAt(s0.files, s0.files, muts, p);
    }
    assert overlay == planned by {
      forall p | p in overlay ensures p in planned && overlay[p] == planned[p] {
        assert EntryOf(overlay, p) == EntryOf(planned, p);
      }
      forall p | p in planned ensures p in overlay {
        assert EntryOf(overlay, p) == EntryOf(planned, p);
      }
    }
    AppliesExactlyWhenFeasible(s0, s0.files, muts, remove, construct);
  }
}
