/** What every reachable state of child provisioning satisfies. */
module ChildSafety {
  import opened ChildProtocol

  // ---- Durable state ----

  predicate Unborn(slot: Slot) {
    !slot.born && !slot.stored && !slot.requested
  }

  /** Entry `i` is the one the coordinator writes for resource `i`. */
  predicate EntryAgrees(c: Setup, d: Durable, i: nat)
    requires |d.slots| == 4 && i < |d.ledger| && i < 4
  {
    && d.ledger[i] == Entry(KindOf(i), d.slots[i].id, MetadataOf(c, i), d.ledger[i].state)
    && d.slots[i].born && !d.slots[i].requested
    && (d.ledger[i].state == Reclaimed ==> !d.slots[i].stored)
    && (d.ledger[i].state == Adopted ==> d.op == Succeeded)
  }

  /** The ledger lists resources in the order of their creation: all before the last
      one created, and nothing has been created after the one following the ledger. */
  predicate LedgerAgrees(c: Setup, d: Durable) {
    && |d.slots| == 4 && |d.ledger| <= 4
    && (forall i :: 0 <= i < |d.ledger| ==> EntryAgrees(c, d, i))
    && (forall i :: |d.ledger| < i < 4 ==> Unborn(d.slots[i]))
    && (forall i :: 0 <= i < 4 ==> d.slots[i].stored ==> d.slots[i].born)
    && (forall i, j :: 0 <= i < j < 4 ==> d.slots[i].born && d.slots[j].born ==> d.slots[i].id != d.slots[j].id)
  }

  predicate ObjectsAgree(d: Durable) {
    && d.open <= d.objects
    && (d.preparation != NoPreparation ==> |d.ledger| == 4)
    && (d.preparation == NoPreparation ==> d.objects == 0)
    && (d.preparation == Committed ==> d.op == Succeeded)
    && (d.lease <==> d.op == Succeeded)
  }

  predicate NothingStored(d: Durable) {
    forall i :: 0 <= i < |d.slots| ==> !d.slots[i].stored
  }

  /** Every entry is reclaimed, except possibly the last one. */
  predicate AllButLast(d: Durable) {
    forall i :: 0 <= i < |d.ledger| - 1 ==> d.ledger[i].state == Reclaimed
  }

  predicate OutcomeAgrees(d: Durable)
    requires |d.slots| == 4
  {
    match d.op
    case InProgress => true
    case FailedTerminal => NothingStored(d) && NothingRequested(d) && d.open == 0 && AllButLast(d)
    case Succeeded =>
      && |d.ledger| == 4 && d.open == 0 && NothingRequested(d)
      && d.ledger[0].state == Reclaimed && d.ledger[1].state == Reclaimed
      && d.ledger[2].state == Adopted && d.ledger[3].state == Adopted
      && d.slots[2].stored && d.slots[3].stored
  }

  predicate Facts(c: Setup, d: Durable) {
    LedgerAgrees(c, d) && ObjectsAgree(d) && OutcomeAgrees(d)
  }

  // ---- What the worker knows ----

  predicate Pristine(d: Durable) {
    d.ledger == [] && forall i :: 0 <= i < |d.slots| ==> Unborn(d.slots[i])
  }

  predicate NoObjects(d: Durable) {
    d.preparation == NoPreparation && d.objects == 0
  }

  predicate AllBut(d: Durable, i: nat) {
    forall j :: 0 <= j < |d.slots| && j != i ==> !d.slots[j].requested
  }

  /** The first `n` entries are in the states the coordinator's list says. */
  predicate Matches(d: Durable, resources: seq<Resource>)
    requires |d.slots| == 4
  {
    forall i :: 0 <= i < |resources| && i < 4 ==> MatchesAt(d, resources[i], i)
  }

  predicate MatchesAt(d: Durable, r: Resource, i: nat)
    requires i < 4 == |d.slots|
  {
    if r.reclaimed then !d.slots[i].stored && i < |d.ledger| && d.ledger[i].state == Reclaimed
    else r.known ==> i < |d.ledger| && d.ledger[i].state == Allocated
  }

  predicate Reaching(d: Durable, i: nat)
    requires |d.slots| == 4
  {
    |d.ledger| == i && Matches(d, Held(i)) && NoObjects(d)
    && (i == 3 ==> d.slots[2].stored) && (i == 4 ==> d.slots[2].stored && d.slots[3].stored)
  }

  predicate RunKnows(d: Durable, pc: RunPc) {
    && RunPcOk(d, pc)
    && (pc != Check ==> d.op == InProgress)
    && (!pc.Await? ==> NothingRequested(d))
    && match pc
       case Check => Pristine(d) && NoObjects(d)
       case Ask(i) => Reaching(d, i) && Unborn(d.slots[i])
       case Await(i) => Reaching(d, i) && AllBut(d, i) && (d.slots[i].requested ==> !d.slots[i].stored)
       case Record(i) => Reaching(d, i) && d.slots[i].stored
       case Export => |d.ledger| == 2 && Matches(d, [HELD, HELD]) && NoObjects(d) && Unborn(d.slots[2])
       case Discard(i) =>
         && |d.ledger| == 2 && Matches(d, if i == 1 then [HELD, HELD] else [HELD, DROPPED])
         && NoObjects(d) && Unborn(d.slots[2])
       case Upload => Reaching(d, 3) && Unborn(d.slots[3])
       case Prepare => Reaching(d, 4)
       case Commit =>
         |d.ledger| == 4 && Matches(d, Held(4)) && d.slots[2].stored && d.slots[3].stored
         && d.preparation == Prepared
  }

  /** Whatever the provider has is in the coordinator's list, or is the one request whose
      outcome is ambiguous. */
  predicate Covered(d: Durable, v: Vars)
    requires |d.slots| == 4
  {
    && (forall i :: |v.resources| <= i < 4 ==> d.slots[i].stored ==> v.ambiguous)
    && (!v.ambiguous ==> NothingRequested(d))
    && (forall i :: 0 <= i < |v.resources| && i < 4 ==> !d.slots[i].requested)
    && (forall i :: 0 <= i < |v.resources| && i < 4 ==> v.resources[i].reclaimed ==> !d.slots[i].stored)
  }

  /** The ledger lists no more than the coordinator's list, whose entries are known except
      possibly the last. */
  predicate Tracks(d: Durable, v: Vars) {
    && |d.ledger| <= |v.resources|
    && forall i :: 0 <= i < |v.resources| - 1 ==> v.resources[i].known
  }

  /** An entry the coordinator does not know of is never marked. */
  predicate Unmarked(d: Durable, v: Vars) {
    forall i :: 0 <= i < |d.ledger| && i < |v.resources| ==>
      !v.resources[i].known ==> d.ledger[i].state == Allocated
  }

  /** What has been dropped from the list on is marked, where its entry is known. */
  predicate DroppedFrom(d: Durable, left: nat, v: Vars) {
    forall i :: 0 <= i < |d.ledger| && i < |v.resources| ==>
      (left <= i || v.resources[i].reclaimed) && v.resources[i].known ==> d.ledger[i].state == Reclaimed
  }

  predicate CleanKnows(d: Durable, pc: CleanPc, v: Vars) {
    && CleanOk(d, pc, v) && Covered(d, v) && Tracks(d, v) && Unmarked(d, v)
    && (d.op == InProgress || (d.op == FailedTerminal && v.resources == []))
    && (v.settled && !v.prepared ==> d.open == 0)
    && match pc
       case Abort => DroppedFrom(d, |v.resources|, v)
       case DropHeld(left) =>
         && (!v.failed && v.settled ==> d.open == 0)
         && (!v.failed ==> DroppedFrom(d, left, v))
         && (!v.failed ==> forall i :: left <= i < |v.resources| ==> !d.slots[i].stored)
       case Fail =>
         && (!v.failed && v.settled ==> d.open == 0) && (!v.failed && !v.ambiguous ==> NothingStored(d))
         && (!v.failed ==> DroppedFrom(d, 0, v))
  }

  predicate RecoverKnows(d: Durable, pc: RecoverPc) {
    && RecoverOk(d, pc) && NothingRequested(d)
    && (pc != Inspect ==> d.op == InProgress)
    && match pc
       case SweepSnapshot(i) => !d.slots[1].stored && !d.slots[2].stored && (i != 0 ==> i == 3 && !d.slots[0].stored)
       case Finish => NothingStored(d)
       case Kill(i) => i == 1 || i == 2
       case _ => true
  }

  predicate Knows(d: Durable, control: Control) {
    match control
    case Idle => true
    case Run(pc) => RunKnows(d, pc)
    case LateCaught =>
      && NothingRequested(d) && |d.ledger| == 4
      && (d.op == Succeeded || (d.op == InProgress && |d.slots| == 4 && Matches(d, Held(4))))
    case Clean(pc, v) => CleanKnows(d, pc, v)
    case Recover(pc) => RecoverKnows(d, pc)
  }

  predicate Good(c: Setup, step: Step) {
    Facts(c, step.d) && Knows(step.d, step.control)
  }

  // ---- Steps ----

  /** A resource disappears from the provider. */
  lemma GoneKeeps(c: Setup, d: Durable, i: nat)
    requires Facts(c, d) && d.op != Succeeded && i < 4
    ensures Facts(c, Gone(d, i))
  {
    var e := Gone(d, i);
    forall j | 0 <= j < |d.ledger|
      ensures EntryAgrees(c, e, j)
    {
      assert EntryAgrees(c, d, j);
    }
    assert forall j :: |d.ledger| < j < 4 ==> Unborn(d.slots[j]) && Unborn(e.slots[j]);
  }

  lemma ListedKeeps(c: Setup, d: Durable, i: nat)
    requires Facts(c, d) && d.op == InProgress && i < |d.ledger| && !d.slots[i].stored
    ensures Facts(c, Listed(d, i, Reclaimed))
  {
    var e := Listed(d, i, Reclaimed);
    forall j | 0 <= j < |d.ledger|
      ensures EntryAgrees(c, e, j)
    {
      assert EntryAgrees(c, d, j);
    }
  }

  lemma ReclaimKeeps(c: Setup, d: Durable, owns: bool, i: nat, known: bool, l: Luck)
    requires Facts(c, d) && (owns ==> d.op == InProgress) && i < 4 && (known ==> i < |d.ledger|)
    ensures Facts(c, Reclaim(d, owns, i, known, l))
  {
    if owns {
      GoneKeeps(c, d, i);
      if known {
        ListedKeeps(c, Gone(d, i), i);
      }
    }
  }

  lemma LandKeeps(c: Setup, d: Durable, i: nat, id: nat)
    requires Facts(c, d) && i < 4 && d.op == InProgress
    ensures Facts(c, Land(d, i, id))
  {
    if d.slots[i].requested && Fresh(d, id) {
      assert i < |d.ledger| ==> EntryAgrees(c, d, i);
      assert i > |d.ledger| ==> Unborn(d.slots[i]);
      var e := Land(d, i, id);
      forall j | 0 <= j < |d.ledger|
        ensures EntryAgrees(c, e, j)
      {
        assert EntryAgrees(c, d, j);
      }
    }
  }

  lemma RequestKeeps(c: Setup, d: Durable, requested: bool)
    requires Facts(c, d) && d.op == InProgress && |d.ledger| < 4
    ensures Facts(c, d.(slots := d.slots[|d.ledger| := d.slots[|d.ledger|].(requested := requested)]))
  {
    var e := d.(slots := d.slots[|d.ledger| := d.slots[|d.ledger|].(requested := requested)]);
    forall j | 0 <= j < |d.ledger|
      ensures EntryAgrees(c, e, j)
    {
      assert EntryAgrees(c, d, j);
    }
  }

  lemma AppendKeeps(c: Setup, d: Durable)
    requires Facts(c, d) && d.op == InProgress && |d.ledger| < 4 && NoObjects(d)
    requires d.slots[|d.ledger|].stored && !d.slots[|d.ledger|].requested
    ensures var i := |d.ledger|;
      Facts(c, d.(ledger := d.ledger + [Entry(KindOf(i), d.slots[i].id, MetadataOf(c, i), Allocated)]))
  {
    var i := |d.ledger|;
    var e := d.(ledger := d.ledger + [Entry(KindOf(i), d.slots[i].id, MetadataOf(c, i), Allocated)]);
    forall j | 0 <= j < i
      ensures EntryAgrees(c, e, j)
    {
      assert EntryAgrees(c, d, j);
    }
    assert EntryAgrees(c, e, i);
  }

  // ---- The coordinator's steps ----

  lemma CheckKeeps(c: Setup, d: Durable, owns: bool, l: Luck)
    requires Facts(c, d) && RunKnows(d, Check) && (owns ==> d.op == InProgress)
    ensures Good(c, RunStep(c, d, owns, Check, l))
  {
    assert forall i :: 0 <= i < 4 ==> Unborn(d.slots[i]);
  }

  lemma AskKeeps(c: Setup, d: Durable, owns: bool, i: nat, l: Luck)
    requires Facts(c, d) && RunKnows(d, Ask(i))
    ensures Good(c, RunStep(c, d, owns, Ask(i), l))
  {
    RequestKeeps(c, d, true);
    var e := RunStep(c, d, owns, Ask(i), l).d;
    assert forall j :: 0 <= j < |Held(i)| ==> MatchesAt(d, Held(i)[j], j) && MatchesAt(e, Held(i)[j], j);
  }

  /** Slots and entries below `i` are as before. */
  predicate SameBelow(d: Durable, e: Durable, i: nat) {
    && |d.slots| == |e.slots| == 4 && i <= 4 && i <= |d.ledger| && i <= |e.ledger|
    && (forall j :: 0 <= j < i ==> e.slots[j] == d.slots[j] && e.ledger[j] == d.ledger[j])
  }

  lemma MatchesBelow(d: Durable, e: Durable, i: nat)
    requires SameBelow(d, e, i) && Matches(d, Held(i))
    ensures |Held(i)| == i && Matches(e, Held(i))
  {
    assert |Held(i)| == i;
    forall j | 0 <= j < i
      ensures MatchesAt(e, Held(i)[j], j)
    {
      assert MatchesAt(d, Held(i)[j], j);
    }
  }

  lemma AwaitFails(d: Durable, i: nat)
    requires |d.slots| == 4 && i < 4 && |d.ledger| == i && Matches(d, Held(i)) && AllBut(d, i)
    requires d.op == InProgress && d.open == 0 && forall j :: i < j < 4 ==> Unborn(d.slots[j])
    ensures CleanKnows(d, Abort, Vars(Held(i), false, true, true, false))
  {
    assert |Held(i)| == i;
    assert forall j :: 0 <= j < i ==> MatchesAt(d, Held(i)[j], j);
  }

  lemma AwaitKeeps(c: Setup, d: Durable, owns: bool, i: nat, l: Luck)
    requires Facts(c, d) && RunKnows(d, Await(i))
    ensures Good(c, RunStep(c, d, owns, Await(i), l))
  {
    var e := RunStep(c, d, owns, Await(i), l).d;
    assert Facts(c, e) by {
      LandKeeps(c, d, i, l.id);
    }
    assert forall j :: i < j < 4 ==> Unborn(d.slots[j]) && e.slots[j] == d.slots[j];
    MatchesBelow(d, e, i);
    AwaitFails(e, i);
    AwaitSucceeds(d, e, i);
  }

  lemma AwaitSucceeds(d: Durable, e: Durable, i: nat)
    requires RunKnows(d, Await(i)) && |e.slots| == 4 && SameBelow(d, e, i) && e == d.(slots := e.slots)
    requires forall j :: 0 <= j < 4 && j != i ==> e.slots[j] == d.slots[j]
    ensures e.slots[i].stored && !e.slots[i].requested ==> RunKnows(e, Record(i))
  {
    MatchesBelow(d, e, i);
  }

  /** The variables when a resource is held whose ledger entry is not known. */
  function HeldUnknown(i: nat): Vars {
    Vars(Held(i) + [Resource(false, false)], false, false, true, false)
  }

  lemma UnknownKeeps(d: Durable, i: nat)
    requires |d.slots| == 4 && i < 4 && i <= |d.ledger| <= i + 1 && Matches(d, Held(i)) && NothingRequested(d)
    requires i < |d.ledger| ==> d.ledger[i].state == Allocated
    requires d.op == InProgress && d.open == 0 && forall j :: i < j < 4 ==> Unborn(d.slots[j])
    ensures CleanKnows(d, Abort, HeldUnknown(i))
  {
    var v := HeldUnknown(i);
    assert |v.resources| == i + 1;
    assert forall j :: 0 <= j < i ==> MatchesAt(d, Held(i)[j], j) && v.resources[j] == Held(i)[j];
  }

  lemma RecordedKnows(d: Durable, e: Durable, i: nat)
    requires RunKnows(d, Record(i)) && |d.slots| == 4 && forall j :: i < j < 4 ==> Unborn(d.slots[j])
    requires |e.ledger| == i + 1 && e.ledger[..i] == d.ledger && e.ledger[i].state == Allocated
    requires e == d.(ledger := e.ledger)
    ensures RunKnows(e, AfterRecord(i))
  {
    assert |Held(i)| == i;
    assert forall j :: 0 <= j < i ==> e.ledger[j] == e.ledger[..i][j];
    assert forall j :: 0 <= j < i ==> MatchesAt(d, Held(i)[j], j) && MatchesAt(e, Held(i)[j], j);
    assert MatchesAt(e, HELD, i);
  }

  lemma RecordKeeps(c: Setup, d: Durable, owns: bool, i: nat, l: Luck)
    requires Facts(c, d) && RunKnows(d, Record(i)) && (owns ==> d.op == InProgress)
    ensures Good(c, RunStep(c, d, owns, Record(i), l))
  {
    AppendKeeps(c, d);
    var e := RunStep(c, d, owns, Record(i), l).d;
    MatchesBelow(d, e, i);
    UnknownKeeps(e, i);
    if owns && Lands(l.tx) {
      RecordedKnows(d, e, i);
    }
  }

  /** Failing with every resource held is covered by the list. */
  lemma HeldKnows(d: Durable, resources: seq<Resource>, prepared: bool, settled: bool)
    requires |d.slots| == 4 && |resources| <= 4 && Matches(d, resources) && NothingRequested(d)
    requires d.op == InProgress && (settled && !prepared ==> d.open == 0)
    requires |d.ledger| <= |resources| && forall j :: 0 <= j < |resources| ==> resources[j].known
    requires forall j :: |resources| <= j < 4 ==> Unborn(d.slots[j])
    ensures CleanKnows(d, Abort, Vars(resources, prepared, false, settled, false))
  {
    assert forall j :: 0 <= j < |resources| ==> MatchesAt(d, resources[j], j);
  }

  lemma ExportKeeps(c: Setup, d: Durable, owns: bool, pc: RunPc, l: Luck)
    requires Facts(c, d) && RunKnows(d, pc) && (pc.Export? || pc.Upload?)
    ensures Good(c, RunStep(c, d, owns, pc, l))
  {
    if pc.Export? {
      OnlyListed(c, d, 2);
      HeldKnows(d, [HELD, HELD], false, true);
    } else {
      OnlyListed(c, d, 3);
      HeldKnows(d, Held(3), false, true);
    }
  }

  /** Once resource `n - 1` is listed and nothing was asked since, the rest is unborn. */
  lemma OnlyListed(c: Setup, d: Durable, n: nat)
    requires Facts(c, d) && |d.ledger| == n && n < 4 && Unborn(d.slots[n])
    ensures forall j :: n <= j < 4 ==> Unborn(d.slots[j])
  {
  }

  lemma DiscardKeeps(c: Setup, d: Durable, owns: bool, i: nat, l: Luck)
    requires Facts(c, d) && RunKnows(d, Discard(i)) && (owns ==> d.op == InProgress)
    ensures Good(c, RunStep(c, d, owns, Discard(i), l))
  {
    var held := if i == 1 then [HELD, HELD] else [HELD, DROPPED];
    ReclaimKeeps(c, d, owns, i, true, l);
    OnlyListed(c, d, 2);
    var e := Reclaim(d, owns, i, true, l);
    assert MatchesAt(d, held[0], 0) && MatchesAt(d, held[1], 1);
    if ReclaimSeen(owns, l) {
      assert MatchesAt(e, DROPPED, i);
    } else {
      DiscardFailed(d, e, held, i);
    }
  }

  /** A discard that was not seen to succeed may still have happened. */
  lemma DiscardFailed(d: Durable, e: Durable, held: seq<Resource>, i: nat)
    requires |d.slots| == 4 && |held| == 2 && i < 2 == |d.ledger| && NothingRequested(d) && d.open == 0
    requires held[0].known && held[1].known
    requires e == d || e == Gone(d, i) || e == Listed(Gone(d, i), i, Reclaimed)
    requires d.op == InProgress && held[i] == HELD && forall j :: 2 <= j < 4 ==> Unborn(d.slots[j])
    requires MatchesAt(d, held[0], 0) && MatchesAt(d, held[1], 1)
    ensures CleanKnows(e, Abort, Vars(held, false, false, true, false))
  {
    assert forall j :: 2 <= j < 4 ==> e.slots[j] == d.slots[j];
  }

  lemma PrepareKeeps(c: Setup, d: Durable, owns: bool, l: Luck)
    requires Facts(c, d) && RunKnows(d, Prepare) && (owns ==> d.op == InProgress)
    ensures Good(c, RunStep(c, d, owns, Prepare, l))
  {
    var step := RunStep(c, d, owns, Prepare, l);
    ObjectsKeep(c, d, step.d);
    assert forall j :: 0 <= j < 4 ==> MatchesAt(d, Held(4)[j], j) && MatchesAt(step.d, Held(4)[j], j);
    HeldKnows(step.d, Held(4), false, owns && l.preparing.GivenUp?);
  }

  /** Only the preparation and its objects change. */
  lemma ObjectsKeep(c: Setup, d: Durable, e: Durable)
    requires Facts(c, d) && d.op == InProgress && |d.ledger| == 4
    requires e == d.(preparation := e.preparation, objects := e.objects, open := e.open)
    requires e.open <= e.objects && e.preparation != Committed && (e.preparation == NoPreparation ==> e.objects == 0)
    ensures Facts(c, e)
  {
    forall j | 0 <= j < 4
      ensures EntryAgrees(c, e, j)
    {
      assert EntryAgrees(c, d, j);
    }
  }

  lemma CommitKeeps(c: Setup, d: Durable, owns: bool, l: Luck)
    requires Facts(c, d) && RunKnows(d, Commit) && (owns ==> d.op == InProgress)
    ensures Good(c, RunStep(c, d, owns, Commit, l))
  {
    assert forall j :: 0 <= j < 4 ==> MatchesAt(d, Held(4)[j], j);
    if owns && Lands(l.tx) && Exact(d) {
      var e := RunStep(c, d, owns, Commit, l).d;
      forall j | 0 <= j < 4
        ensures EntryAgrees(c, e, j)
      {
        assert EntryAgrees(c, d, j);
      }
    }
  }

  lemma LateKeeps(c: Setup, d: Durable, owns: bool, l: Luck)
    requires Facts(c, d) && Knows(d, LateCaught) && (owns ==> d.op == InProgress)
    ensures Knows(d, LateStep(d, owns, l))
  {
    if owns {
      HeldKnows(d, Held(4), true, true);
    }
  }

  // ---- The coordinator's failure handling ----

  lemma AbortKeeps(c: Setup, d: Durable, owns: bool, v: Vars, l: Luck)
    requires Facts(c, d) && CleanKnows(d, Abort, v) && (owns ==> d.op == InProgress)
    ensures Good(c, CleanStep(d, owns, Abort, v, l))
  {
    if v.prepared && owns {
      AbortedKeeps(c, d, l.left);
    }
  }

  lemma AbortedKeeps(c: Setup, d: Durable, left: nat)
    requires Facts(c, d) && d.op == InProgress
    ensures Facts(c, AbortedObjects(d, left))
    ensures var e := AbortedObjects(d, left);
      e == d.(preparation := e.preparation, open := e.open) && e.open <= d.open
  {
    if |d.ledger| == 4 {
      ObjectsKeep(c, d, AbortedObjects(d, left));
    }
  }

  lemma AbortBegunKeeps(c: Setup, d: Durable)
    requires Facts(c, d) && d.op == InProgress
    ensures Facts(c, AbortBegun(d))
  {
    if |d.ledger| == 4 {
      ObjectsKeep(c, d, AbortBegun(d));
    }
  }

  lemma DropHeldKeeps(c: Setup, d: Durable, owns: bool, left: nat, v: Vars, l: Luck)
    requires Facts(c, d) && CleanKnows(d, DropHeld(left), v) && (owns ==> d.op == InProgress)
    ensures Good(c, CleanStep(d, owns, DropHeld(left), v, l))
  {
    if left == 0 || v.resources[left - 1].reclaimed {
      SkippedKnows(d, left, v);
      SkippedStep(d, owns, left, v, l);
    } else {
      DropOneKeeps(c, d, owns, left, v, l);
      DropOneStep(d, owns, left, v, l);
    }
  }

  lemma SkippedStep(d: Durable, owns: bool, left: nat, v: Vars, l: Luck)
    requires CleanOk(d, DropHeld(left), v) && (left == 0 || v.resources[left - 1].reclaimed)
    ensures CleanStep(d, owns, DropHeld(left), v, l) ==
              Step(d, if left == 0 then Clean(Fail, v) else Clean(DropHeld(left - 1), v))
  {
  }

  lemma DropOneStep(d: Durable, owns: bool, left: nat, v: Vars, l: Luck)
    requires CleanOk(d, DropHeld(left), v) && left > 0 && !v.resources[left - 1].reclaimed
    ensures CleanStep(d, owns, DropHeld(left), v, l) ==
              Step(Reclaim(d, owns, left - 1, v.resources[left - 1].known, l),
                   Clean(DropHeld(left - 1), v.(failed := v.failed || !ReclaimSeen(owns, l))))
  {
  }

  lemma DropOneKeeps(c: Setup, d: Durable, owns: bool, left: nat, v: Vars, l: Luck)
    requires Facts(c, d) && CleanKnows(d, DropHeld(left), v) && (owns ==> d.op == InProgress)
    requires left > 0 && !v.resources[left - 1].reclaimed
    ensures Good(c, Step(Reclaim(d, owns, left - 1, v.resources[left - 1].known, l),
                         Clean(DropHeld(left - 1), v.(failed := v.failed || !ReclaimSeen(owns, l)))))
  {
    var known := v.resources[left - 1].known;
    ReclaimKeeps(c, d, owns, left - 1, known, l);
    ReclaimFrame(d, owns, left - 1, known, l);
    DroppedKnows(d, Reclaim(d, owns, left - 1, known, l), left, v, ReclaimSeen(owns, l));
  }

  lemma SkippedKnows(d: Durable, left: nat, v: Vars)
    requires CleanKnows(d, DropHeld(left), v)
    ensures left == 0 ==> CleanKnows(d, Fail, v)
    ensures left > 0 && v.resources[left - 1].reclaimed ==> CleanKnows(d, DropHeld(left - 1), v)
  {
  }

  lemma DroppedKnows(d: Durable, e: Durable, left: nat, v: Vars, seen: bool)
    requires CleanKnows(d, DropHeld(left), v) && left > 0
    requires e == d.(slots := e.slots, ledger := e.ledger) && |e.slots| == 4 && |e.ledger| == |d.ledger|
    requires forall j :: 0 <= j < 4 && j != left - 1 ==> e.slots[j] == d.slots[j]
    requires e.slots[left - 1] == d.slots[left - 1] || e.slots[left - 1] == d.slots[left - 1].(stored := false)
    requires seen ==> !e.slots[left - 1].stored
    requires forall j :: 0 <= j < |d.ledger| && j != left - 1 ==> e.ledger[j] == d.ledger[j]
    requires v.resources[left - 1].known && seen ==> e.ledger[left - 1].state == Reclaimed
    requires !v.resources[left - 1].known ==> e.ledger == d.ledger
    ensures CleanKnows(e, DropHeld(left - 1), v.(failed := v.failed || !seen))
  {
  }

  lemma ReclaimFrame(d: Durable, owns: bool, i: nat, known: bool, l: Luck)
    requires |d.slots| == 4 && i < 4 && (known ==> i < |d.ledger|)
    ensures var e := Reclaim(d, owns, i, known, l);
      && e == d.(slots := e.slots, ledger := e.ledger) && |e.slots| == 4 && |e.ledger| == |d.ledger|
      && (forall j :: 0 <= j < 4 && j != i ==> e.slots[j] == d.slots[j])
      && (e.slots[i] == d.slots[i] || e.slots[i] == d.slots[i].(stored := false))
      && (ReclaimSeen(owns, l) ==> !e.slots[i].stored)
      && (forall j :: 0 <= j < |d.ledger| && j != i ==> e.ledger[j] == d.ledger[j])
      && (known && ReclaimSeen(owns, l) ==> e.ledger[i].state == Reclaimed)
      && (!known ==> e.ledger == d.ledger)
  {
  }

  lemma FailKeeps(c: Setup, d: Durable, owns: bool, v: Vars, l: Luck)
    requires Facts(c, d) && CleanKnows(d, Fail, v) && (owns ==> d.op == InProgress)
    ensures Good(c, CleanStep(d, owns, Fail, v, l))
  {
    if !v.failed {
      OnlyLastIsLeft(d, v);
    }
    FailedKeeps(c, d);
  }

  /** When everything known has been dropped, exactly an entry the coordinator does not know
      of is left, and that is the last one. */
  lemma OnlyLastIsLeft(d: Durable, v: Vars)
    requires CleanKnows(d, Fail, v) && !v.failed
    ensures AllButLast(d)
    ensures (exists i :: 0 <= i < |d.ledger| && d.ledger[i].state != Reclaimed) <==>
              v.resources != [] && !v.resources[|v.resources| - 1].known && |d.ledger| == |v.resources|
  {
    var n := |v.resources|;
    if n > 0 && !v.resources[n - 1].known && |d.ledger| == n {
      assert d.ledger[n - 1].state == Allocated;
    }
  }

  /** Recording the failure keeps the ledger as it is. */
  lemma FailedKeeps(c: Setup, d: Durable)
    requires Facts(c, d)
    ensures d.op == InProgress && NothingStored(d) && NothingRequested(d) && d.open == 0 && AllButLast(d) ==>
              Facts(c, d.(op := FailedTerminal))
  {
    var e := d.(op := FailedTerminal);
    if d.op == InProgress {
      forall j | 0 <= j < |d.ledger|
        ensures EntryAgrees(c, e, j)
      {
        assert EntryAgrees(c, d, j);
      }
    }
  }

  // ---- The reconciler's steps ----

  lemma DropListedKeeps(c: Setup, d: Durable, owns: bool, i: nat, l: Luck)
    requires Facts(c, d) && RecoverKnows(d, DropListed(i)) && (owns ==> d.op == InProgress)
    ensures Good(c, RecoverStep(c, d, owns, DropListed(i), l))
  {
    if i < |d.ledger| && d.ledger[i].state == Allocated {
      ReclaimKeeps(c, d, owns, i, true, l);
      ReclaimFrame(d, owns, i, true, l);
    }
  }

  lemma SweepKeeps(c: Setup, d: Durable, owns: bool, pc: RecoverPc, l: Luck)
    requires Facts(c, d) && RecoverKnows(d, pc) && (owns ==> d.op == InProgress)
    requires pc.Kill? || pc.SandboxesGone? || pc.SweepSnapshot?
    ensures Good(c, RecoverStep(c, d, owns, pc, l))
  {
    if !pc.SandboxesGone? {
      GoneKeeps(c, d, pc.i);
    }
  }

  lemma RecoverKeeps(c: Setup, d: Durable, owns: bool, pc: RecoverPc, l: Luck)
    requires Facts(c, d) && RecoverKnows(d, pc) && (owns ==> d.op == InProgress)
    ensures Good(c, RecoverStep(c, d, owns, pc, l))
  {
    match pc
    case AbortObjects =>
      if owns {
        AbortedKeeps(c, d, l.left);
        AbortBegunKeeps(c, d);
      }
    case DropListed(i) => DropListedKeeps(c, d, owns, i, l);
    case Kill(_) => SweepKeeps(c, d, owns, pc, l);
    case SandboxesGone => SweepKeeps(c, d, owns, pc, l);
    case SweepSnapshot(_) => SweepKeeps(c, d, owns, pc, l);
    case Finish => FailedKeeps(c, d);
    case _ =>
  }
}
