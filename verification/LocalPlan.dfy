/** The intents a local patch application journals, in their order, and the exact
    condition under which all of them can be carried out. */
module LocalPlan {
  import opened CheckoutTree
  import opened LocalJournal
  import opened LocalRestart

  /** The proposed entry of every path to mutate; the manifest diff lists a path once. */
  type Proposal = map<Path, Entry>

  // ---- Which changes are mutations ----

  /** A manifest entry as `sameEntry` compares it: the path is part of it. */
  datatype Listing = Unlisted | Listed(path: Path, node: Node)

  function ListingOf(p: Path, e: Entry): Listing {
    match e
    case Absent => Unlisted
    case Of(n) => Listed(p, n)
  }

  /** The filter on changes.  The listed entry carries its path in the checkout and the
      proposed one its path in the hosted workspace. */
  predicate IsMutation(prefix: Path, target: Files, p: Path, proposed: Entry) {
    ListingOf(p, EntryOf(target, p)) != ListingOf(prefix + p, proposed)
  }

  /** Because of the two paths, only a change that is absent on both sides is filtered
      out; an entry that already equals its proposal is removed and installed again. */
  lemma MutationFilterExact(prefix: Path, target: Files, p: Path, proposed: Entry)
    requires prefix != []
    ensures IsMutation(prefix, target, p, proposed) <==>
              !(EntryOf(target, p).Absent? && proposed.Absent?)
  {
    assert |prefix + p| != |p|;
  }

  /** Such an entry exists: a file that already is what the patch proposes is removed and
      installed again. */
  lemma UnchangedFileIsMutated()
    ensures
      var prefix, p, file := ["roots", "0", "repo"], ["f"], File(420, "d", 1);
      var target := map[p := file];
      && EntryOf(target, p) == Of(file) && IsMutation(prefix, target, p, Of(file))
      && Removes(target, map[p := Of(file)], p)
  {
    assert |["roots", "0", "repo"] + ["f"]| == 4;
  }

  // ---- The intents ----

  function Proposed(muts: Proposal, p: Path): Entry {
    if p in muts then muts[p] else Absent
  }

  predicate SameType(a: Node, b: Node) {
    a.Directory? == b.Directory? && a.File? == b.File?
  }

  predicate Removes(target: Files, muts: Proposal, p: Path) {
    && p in muts && p in target
    && (muts[p].Absent? || !SameType(target[p], muts[p].node) || !target[p].Directory?)
  }

  predicate Builds(muts: Proposal, p: Path) {
    p in muts && muts[p].Of?
  }

  /** A listed directory that stays a directory: at most its mode changes. */
  predicate InPlace(target: Files, muts: Proposal, p: Path) {
    Builds(muts, p) && muts[p].node.Directory? && p in target && target[p].Directory?
  }

  predicate Skips(target: Files, muts: Proposal, p: Path) {
    InPlace(target, muts, p) && target[p].mode == muts[p].node.mode
  }

  function RemovalOf(target: Files, p: Path): Action {
    Action(if p in target && target[p].Directory? then RemoveDirectory else Backup,
           p, EntryOf(target, p), Absent)
  }

  function ConstructionOf(target: Files, muts: Proposal, p: Path): Action {
    if InPlace(target, muts, p) then Action(ChangeMode, p, EntryOf(target, p), Proposed(muts, p))
    else if Builds(muts, p) && muts[p].node.Directory? then Action(MakeDirectory, p, Absent, muts[p])
    else Action(Install, p, Absent, Proposed(muts, p))
  }

  /** Constructions in order, without the directories that need no change. */
  function Kept(target: Files, muts: Proposal, construct: seq<Path>): seq<Path> {
    if construct == [] then []
    else
      var rest, p := construct[..|construct| - 1], construct[|construct| - 1];
      Kept(target, muts, rest) + if Skips(target, muts, p) then [] else [p]
  }

  function Intents(target: Files, muts: Proposal, remove: seq<Path>, kept: seq<Path>): seq<Action> {
    seq(|remove|, i requires 0 <= i < |remove| => RemovalOf(target, remove[i]))
    + seq(|kept|, i requires 0 <= i < |kept| => ConstructionOf(target, muts, kept[i]))
  }

  ghost predicate Distinct(ps: seq<Path>) {
    forall i, j :: 0 <= i < j < |ps| ==> ps[i] != ps[j]
  }

  ghost predicate DeepestFirst(ps: seq<Path>) {
    forall i, j :: 0 <= i < j < |ps| ==> |ps[i]| >= |ps[j]|
  }

  ghost predicate ShallowestFirst(ps: seq<Path>) {
    forall i, j :: 0 <= i < j < |ps| ==> |ps[i]| <= |ps[j]|
  }

  /** Removals deepest first and constructions shallowest first, each path once; paths of
      equal depth may come in any order. */
  ghost predicate Arranged(target: Files, muts: Proposal, remove: seq<Path>, construct: seq<Path>) {
    && (forall p :: p in remove <==> Removes(target, muts, p))
    && (forall p :: p in construct <==> Builds(muts, p))
    && Distinct(remove) && DeepestFirst(remove)
    && Distinct(construct) && ShallowestFirst(construct)
  }

  /** Every mutation is of a proper path and changes a listed path or proposes an entry. */
  ghost predicate Mutations(target: Files, muts: Proposal) {
    forall p :: p in muts ==> p != [] && (muts[p].Of? || p in target)
  }

  // ---- What the checkout should become ----

  function OverlayEntry(fs: Files, target: Files, muts: Proposal, p: Path): Entry {
    if p in muts && !Skips(target, muts, p) then muts[p] else EntryOf(fs, p)
  }

  /** The checkout overlaid with the patch. */
  function Overlay(fs: Files, target: Files, muts: Proposal): Files {
    map p | p in fs.Keys + muts.Keys && OverlayEntry(fs, target, muts, p).Of?
      :: OverlayEntry(fs, target, muts, p).node
  }

  lemma OverlayAt(fs: Files, target: Files, muts: Proposal, p: Path)
    ensures EntryOf(Overlay(fs, target, muts), p) == OverlayEntry(fs, target, muts, p)
  {
  }

  /** The condition on the checkout, the listing and the patch: every entry to remove or
      to give a new mode is on disk as listed, no unlisted entry occupies a path to
      construct, and the overlaid checkout is itself a tree. */
  ghost predicate Feasible(fs: Files, target: Files, muts: Proposal) {
    && (forall p :: Removes(target, muts, p) ==> EntryOf(fs, p) == EntryOf(target, p))
    && (forall p :: InPlace(target, muts, p) && !Skips(target, muts, p) ==>
                      EntryOf(fs, p) == EntryOf(target, p))
    && (forall p :: Builds(muts, p) && p !in target ==> p !in fs)
    && IsTree(Overlay(fs, target, muts))
  }

  // ---- Intermediate states ----

  lemma {:induction false} KeptMember(target: Files, muts: Proposal, construct: seq<Path>, p: Path)
    ensures p in Kept(target, muts, construct) <==> p in construct && !Skips(target, muts, p)
  {
    if construct != [] {
      var rest, last := construct[..|construct| - 1], construct[|construct| - 1];
      assert construct == rest + [last];
      KeptMember(target, muts, rest, p);
    }
  }

  lemma {:induction false} KeptOrder(target: Files, muts: Proposal, construct: seq<Path>)
    requires Distinct(construct) && ShallowestFirst(construct)
    ensures Distinct(Kept(target, muts, construct)) && ShallowestFirst(Kept(target, muts, construct))
  {
    if construct != [] {
      var rest, last := construct[..|construct| - 1], construct[|construct| - 1];
      KeptOrder(target, muts, rest);
      var kept := Kept(target, muts, rest);
      forall i | 0 <= i < |kept| ensures kept[i] != last && |kept[i]| <= |last| {
        KeptMember(target, muts, rest, kept[i]);
        var j :| 0 <= j < |rest| && rest[j] == kept[i];
        assert construct[j] == kept[i];
      }
    }
  }

  /** Before intent `k`, the entry at `q` is the one its last earlier intent left. */
  function EntryBefore(fs: Files, muts: Proposal, remove: seq<Path>, kept: seq<Path>, k: nat, q: Path): Entry
    requires k <= |remove| + |kept|
  {
    if k > |remove| && q in kept[..k - |remove|] then Proposed(muts, q)
    else if q in remove[..if k < |remove| then k else |remove|] then Absent
    else EntryOf(fs, q)
  }

  lemma {:induction false} StateBefore(s0: Store, target: Files, muts: Proposal,
                                       remove: seq<Path>, kept: seq<Path>, k: nat, q: Path)
    requires k <= |remove| + |kept|
    requires forall p :: p in kept ==> Builds(muts, p)
    ensures var journal := Intents(target, muts, remove, kept);
            EntryOf(At(s0, journal, k).files, q) == EntryBefore(s0.files, muts, remove, kept, k, q)
  {
    var journal := Intents(target, muts, remove, kept);
    if k > 0 {
      StateBefore(s0, target, muts, remove, kept, k - 1, q);
      ReplayBy(s0, journal, k - 1);
      EntryBeforeBy(s0.files, target, muts, remove, kept, k - 1, q);
    }
  }

  /** How one intent changes the entry at a path. */
  lemma EntryBeforeBy(fs: Files, target: Files, muts: Proposal, remove: seq<Path>, kept: seq<Path>, k: nat, q: Path)
    requires k < |remove| + |kept|
    requires forall p :: p in kept ==> Builds(muts, p)
    ensures var a := Intents(target, muts, remove, kept)[k];
            EntryBefore(fs, muts, remove, kept, k + 1, q) ==
            if a.path == q then a.after else EntryBefore(fs, muts, remove, kept, k, q)
  {
    if k < |remove| {
      assert remove[..k + 1] == remove[..k] + [remove[k]];
    } else {
      var x := k - |remove|;
      assert kept[x] in kept;
      assert kept[..x + 1] == kept[..x] + [kept[x]];
    }
  }

  lemma {:induction false} BackupBefore(s0: Store, target: Files, muts: Proposal,
                                        remove: seq<Path>, kept: seq<Path>, k: nat, q: Path)
    requires k <= |remove| + |kept| && s0.backup == map[]
    requires q in At(s0, Intents(target, muts, remove, kept), k).backup
    ensures q in remove[..if k < |remove| then k else |remove|]
  {
    var journal := Intents(target, muts, remove, kept);
    if k > 0 {
      var earlier := At(s0, journal, k - 1).backup;
      assert q in earlier || (journal[k - 1].kind.Backup? && journal[k - 1].path == q) by {
        ReplayBy(s0, journal, k - 1);
      }
      if k <= |remove| {
        assert remove[..k] == remove[..k - 1] + [remove[k - 1]];
      }
      if q in earlier {
        BackupBefore(s0, target, muts, remove, kept, k - 1, q);
      } else {
        assert k <= |remove|;
      }
    }
  }
}
