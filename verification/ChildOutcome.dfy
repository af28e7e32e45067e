/** Theorems about whole runs of child provisioning: the ledgers a coordinator can leave are
    the ones its reconciler accepts, a failure leaves nothing behind, and recovery completes
    exactly when the ledger is within the reconciler's limit. */
module ChildOutcome {
  import opened ChildProtocol
  import opened ChildSafety

  function Init(): World {
    World(Empty(), 0, {0}, 0, Idle)
  }

  /** The run stays within the control states for which steps are defined; see Reachable. */
  function After(c: Setup, events: seq<Event>): World {
    if events == [] then Init()
    else
      var s := After(c, events[..|events| - 1]);
      if Ok(s.d, s.control) then Next(c, s, events[|events| - 1]) else s
  }

  predicate Coordinating(control: Control) {
    control.Run? || control.Clean? || control.LateCaught?
  }

  predicate Inv(c: Setup, s: World) {
    && Facts(c, s.d) && Knows(s.d, s.control)
    && (0 in s.waiting ==> Pristine(s.d) && NoObjects(s.d) && !Coordinating(s.control))
  }

  lemma RunKeeps(c: Setup, d: Durable, owns: bool, pc: RunPc, l: Luck)
    requires Facts(c, d) && RunKnows(d, pc) && (owns ==> d.op == InProgress)
    ensures Good(c, RunStep(c, d, owns, pc, l))
  {
    match pc
    case Check => CheckKeeps(c, d, owns, l);
    case Ask(i) => AskKeeps(c, d, owns, i, l);
    case Await(i) => AwaitKeeps(c, d, owns, i, l);
    case Record(i) => RecordKeeps(c, d, owns, i, l);
    case Discard(i) => DiscardKeeps(c, d, owns, i, l);
    case Prepare => PrepareKeeps(c, d, owns, l);
    case Commit => CommitKeeps(c, d, owns, l);
    case _ => ExportKeeps(c, d, owns, pc, l);
  }

  lemma WorkKeeps(c: Setup, d: Durable, owns: bool, control: Control, l: Luck)
    requires Facts(c, d) && Knows(d, control) && (owns ==> d.op == InProgress)
    ensures Ok(d, control) && Good(c, WorkStep(c, d, owns, control, l))
  {
    match control
    case Idle =>
    case Run(pc) => RunKeeps(c, d, owns, pc, l);
    case LateCaught => LateKeeps(c, d, owns, l);
    case Clean(pc, v) =>
      match pc {
        case Abort => AbortKeeps(c, d, owns, v, l);
        case DropHeld(left) => DropHeldKeeps(c, d, owns, left, v, l);
        case Fail => FailKeeps(c, d, owns, v, l);
      }
    case Recover(pc) => RecoverKeeps(c, d, owns, pc, l);
  }

  lemma SettleKeeps(c: Setup, d: Durable, control: Control, i: nat, id: nat)
    requires Facts(c, d) && Knows(d, control) && i < 4 && d.slots[i].requested
    ensures Facts(c, Land(d, i, id)) && Knows(Land(d, i, id), control)
    ensures Facts(c, Drop(d, i)) && Knows(Drop(d, i), control)
  {
    assert d.op == InProgress;
    LandKeeps(c, d, i, id);
    assert i == |d.ledger| by {
      assert i < |d.ledger| ==> EntryAgrees(c, d, i);
      assert i > |d.ledger| ==> Unborn(d.slots[i]);
    }
    RequestKeeps(c, d, false);
    SettleKnows(d, Land(d, i, id), control, i);
    SettleKnows(d, Drop(d, i), control, i);
  }

  lemma SettleKnows(d: Durable, e: Durable, control: Control, i: nat)
    requires |d.slots| == 4 && Knows(d, control) && i < 4 && d.slots[i].requested && i == |d.ledger|
    requires |e.slots| == 4 && e == d.(slots := e.slots)
    requires forall j :: 0 <= j < 4 && j != i ==> e.slots[j] == d.slots[j]
    requires e.slots[i].requested ==> e.slots[i] == d.slots[i]
    ensures Knows(e, control)
  {
    match control
    case Run(pc) =>
      if pc.Await? {
        assert |Held(i)| == i;
        assert forall j :: 0 <= j < i ==> MatchesAt(d, Held(i)[j], j) && MatchesAt(e, Held(i)[j], j);
      }
    case _ =>
  }

  lemma NextKeeps(c: Setup, s: World, e: Event)
    requires Inv(c, s)
    ensures Ok(s.d, s.control) && Inv(c, Next(c, s, e))
  {
    match e
    case Work(l) => WorkKeeps(c, s.d, Owns(s), s.control, l);
    case Landing(i, id) =>
      if i < 4 && s.d.slots[i].requested {
        SettleKeeps(c, s.d, s.control, i, id);
      }
    case Dropping(i) =>
      if i < 4 {
        if s.d.slots[i].requested {
          SettleKeeps(c, s.d, s.control, i, 0);
        } else {
          assert s.d.slots[i := s.d.slots[i].(requested := false)] == s.d.slots;
        }
      }
    case _ =>
  }

  lemma {:induction false} Reachable(c: Setup, events: seq<Event>)
    ensures Inv(c, After(c, events)) && Ok(After(c, events).d, After(c, events).control)
  {
    if events != [] {
      Reachable(c, events[..|events| - 1]);
      NextKeeps(c, After(c, events[..|events| - 1]), events[|events| - 1]);
    }
    NextKeeps(c, After(c, events), Crash);
  }

  // ---- What a coordinator can leave ----

  /** Requests are validated: none of their fields is empty. */
  predicate Validated(r: Request) {
    r.agent != "" && r.ownerAgent != "" && r.agentType != "" && r.template != "" && r.ownerLease != ""
  }

  lemma MetadataAccepted(c: Setup, i: nat)
    requires Validated(c.request) && i < 4
    ensures i == 0 ==> FirstOk(c, MetadataOf(c, 0))
    ensures i > 0 ==> RestOk(c, i, MetadataOf(c, i), MetadataOf(c, 0).base)
    ensures MetadataOf(c, i).purpose == PurposeOf(i)
  {
  }

  predicate Prefix(c: Setup, d: Durable) {
    && |d.ledger| <= 4
    && (forall i :: 0 <= i < |d.ledger| ==>
          d.ledger[i].kind == KindOf(i) && d.ledger[i].metadata == MetadataOf(c, i))
    && (d.objects > 0 ==> |d.ledger| == 4)
  }

  lemma PrefixAccepted(c: Setup, d: Durable)
    requires Validated(c.request) && Facts(c, d) && d.op == InProgress
    ensures Prefix(c, d) && Accepts(c, d)
  {
    forall i | 0 <= i < |d.ledger|
      ensures d.ledger[i].state != Adopted && d.ledger[i].kind == KindOf(i) && d.ledger[i].metadata == MetadataOf(c, i)
      ensures d.ledger[i].metadata.purpose == PurposeOf(i)
    {
      assert EntryAgrees(c, d, i);
      MetadataAccepted(c, i);
    }
    forall i, j | 0 <= i < j < |d.ledger|
      ensures d.ledger[i].resource != d.ledger[j].resource
    {
      assert EntryAgrees(c, d, i) && EntryAgrees(c, d, j);
    }
    MetadataAccepted(c, 0);
    forall i | 1 <= i < |d.ledger|
      ensures RestOk(c, i, d.ledger[i].metadata, d.ledger[0].metadata.base)
    {
      MetadataAccepted(c, i);
    }
  }

  /** An operation recorded as failed leaves no provider resource, no request that could
      still create one, and no object; its ledger is reclaimed, but possibly for its last
      entry. */
  lemma FailedLeavesNothing(c: Setup, events: seq<Event>)
    requires After(c, events).d.op == FailedTerminal
    ensures var d := After(c, events).d;
      && !d.lease && d.open == 0
      && (forall i :: 0 <= i < |d.slots| ==> !d.slots[i].stored && !d.slots[i].requested)
      && (forall i :: 0 <= i < |d.ledger| - 1 ==> d.ledger[i].state == Reclaimed)
  {
    Reachable(c, events);
  }

  predicate LedgerLeft(d: Durable) {
    exists i :: 0 <= i < |d.ledger| && d.ledger[i].state != Reclaimed
  }

  /** When the coordinator records a failure, a ledger entry is left unreclaimed exactly if
      the last resource it holds was recorded without its knowing: the recording
      transaction landed and its reply was lost. */
  lemma CoordinatorLeavesEntryExactly(c: Setup, events: seq<Event>, l: Luck)
    ensures var s := After(c, events);
      RecordsFailure(c, s, l) ==>
        var held := s.control.vars.resources;
        (LedgerLeft(Next(c, s, Work(l)).d) <==>
           held != [] && !held[|held| - 1].known && |s.d.ledger| == |held|)
  {
    Reachable(c, events);
    var s := After(c, events);
    if RecordsFailure(c, s, l) {
      FailKeepsLedger(c, s, l);
      OnlyLastIsLeft(s.d, s.control.vars);
    }
  }

  /** The coordinator's next step records the failure. */
  predicate RecordsFailure(c: Setup, s: World, l: Luck) {
    && Ok(s.d, s.control) && s.control.Clean? && s.control.clean == Fail && s.d.op == InProgress
    && Next(c, s, Work(l)).d.op == FailedTerminal
  }

  lemma FailKeepsLedger(c: Setup, s: World, l: Luck)
    requires Ok(s.d, s.control) && s.control.Clean? && s.control.clean == Fail && s.d.op == InProgress
    ensures Next(c, s, Work(l)).d.ledger == s.d.ledger
    ensures Next(c, s, Work(l)).d.op == FailedTerminal ==> !s.control.vars.failed
  {
  }

  /** A reconciler records a failure only when every entry is reclaimed. */
  lemma ReconcilerLeavesNoEntry(c: Setup, events: seq<Event>, l: Luck)
    requires var s := After(c, events);
      && Ok(s.d, s.control) && s.control.Recover? && s.d.op == InProgress
      && Next(c, s, Work(l)).d.op == FailedTerminal
    ensures !LedgerLeft(Next(c, After(c, events), Work(l)).d)
  {
    var s := After(c, events);
    OnlyFinishFails(c, s.d, Owns(s), s.control.recover, l);
  }

  lemma OnlyFinishFails(c: Setup, d: Durable, owns: bool, pc: RecoverPc, l: Luck)
    requires RecoverOk(d, pc) && d.op == InProgress
    ensures var e := RecoverStep(c, d, owns, pc, l).d; e.op == FailedTerminal ==> pc == Finish && !LedgerLeft(e)
  {
  }

  /** A provisioned child has its sandbox and its snapshot, and the two resources used for
      the capture are gone. */
  lemma SucceededKeepsTheChild(c: Setup, events: seq<Event>)
    requires After(c, events).d.op == Succeeded
    ensures var d := After(c, events).d;
      && d.lease && |d.slots| == 4 && |d.ledger| == 4
      && d.slots[2].stored && d.slots[3].stored && !d.slots[0].stored && !d.slots[1].stored
      && d.ledger[2].state == Adopted && d.ledger[3].state == Adopted
      && d.ledger[2].resource == d.slots[2].id && d.ledger[3].resource == d.slots[3].id
  {
    Reachable(c, events);
    SucceededFacts(c, After(c, events).d);
  }

  lemma SucceededFacts(c: Setup, d: Durable)
    requires Facts(c, d) && d.op == Succeeded
    ensures !d.slots[0].stored && !d.slots[1].stored
    ensures d.ledger[2].resource == d.slots[2].id && d.ledger[3].resource == d.slots[3].id
  {
    assert EntryAgrees(c, d, 0) && EntryAgrees(c, d, 1) && EntryAgrees(c, d, 2) && EntryAgrees(c, d, 3);
  }

  /** A worker whose claim was superseded, or whose operation is over, changes neither the
      operation nor the child lease, its ledger or its objects, and deletes nothing. */
  lemma SupersededIsFenced(c: Setup, s: World, l: Luck)
    requires Ok(s.d, s.control) && !Owns(s)
    ensures var d, e := s.d, Next(c, s, Work(l)).d;
      && e.op == d.op && e.lease == d.lease && e.ledger == d.ledger
      && e.preparation == d.preparation && e.objects == d.objects && e.open == d.open
      && |e.slots| == |d.slots| && (forall i :: 0 <= i < |d.slots| && d.slots[i].stored ==> e.slots[i].stored)
  {
  }

  // ---- Which interrupted provisionings can be finished ----

  function Quiet(): Luck {
    Luck(Done, Answered, 0, GivenUp(0), 0)
  }

  /** `n` steps of the lock holder in which nothing goes wrong. */
  function Undisturbed(c: Setup, s: World, n: nat): World
    decreases n
  {
    if n == 0 || !Ok(s.d, s.control) then s else Undisturbed(c, Next(c, s, Work(Quiet())), n - 1)
  }

  predicate Recovering(c: Setup, s: World, pc: RecoverPc) {
    Inv(c, s) && s.control == Recover(pc) && Owns(s)
  }

  function Stepped(c: Setup, s: World): World
    requires Ok(s.d, s.control)
  {
    Next(c, s, Work(Quiet()))
  }

  lemma UndisturbedBy(c: Setup, s: World, n: nat)
    requires Ok(s.d, s.control) && n > 0
    ensures Undisturbed(c, s, n) == Undisturbed(c, Stepped(c, s), n - 1)
  {
  }

  lemma {:induction false} StaysFinished(c: Setup, s: World, n: nat)
    requires s.control == Idle && |s.d.slots| == 4
    ensures Undisturbed(c, s, n) == s
  {
    if n > 0 {
      assert Next(c, s, Work(Quiet())) == s;
      StaysFinished(c, s, n - 1);
    }
  }

  /** The ledger is reclaimed up to `i`. */
  predicate ReclaimedTo(d: Durable, i: nat) {
    forall j :: 0 <= j < |d.ledger| && j < i ==> d.ledger[j].state == Reclaimed
  }

  /** The steps after the validation, in order, and how many are left. */
  function Following(pc: RecoverPc): RecoverPc {
    match pc
    case Inspect => Validate
    case Validate => AbortObjects
    case AbortObjects => DropListed(0)
    case DropListed(i) => if i < 4 then DropListed(i + 1) else Kill(1)
    case Kill(i) => if i == 1 then Kill(2) else SandboxesGone
    case SandboxesGone => SweepSnapshot(0)
    case SweepSnapshot(i) => if i == 0 then SweepSnapshot(3) else Finish
    case Finish => Finish
  }

  function StepsLeft(pc: RecoverPc): nat {
    match pc
    case Inspect => 14
    case Validate => 13
    case AbortObjects => 12
    case DropListed(i) => if i <= 4 then 11 - i else 0
    case Kill(i) => if i == 1 then 6 else 5
    case SandboxesGone => 4
    case SweepSnapshot(i) => if i == 0 then 3 else 2
    case Finish => 1
  }

  /** How much is reclaimed by then. */
  predicate Cleared(d: Durable, pc: RecoverPc) {
    match pc
    case Inspect => true
    case Validate => true
    case AbortObjects => true
    case DropListed(i) => i <= 4 && d.open == 0 && ReclaimedTo(d, i)
    case Kill(i) => d.open == 0 && ReclaimedTo(d, 4) && (i == 2 ==> |d.slots| == 4 && !d.slots[1].stored)
    case SandboxesGone =>
      d.open == 0 && ReclaimedTo(d, 4) && |d.slots| == 4 && !d.slots[1].stored && !d.slots[2].stored
    case _ => d.open == 0 && ReclaimedTo(d, 4)
  }

  /** The ledger can be listed, and the object reclaimer takes the limit. */
  predicate Recoverable(c: Setup, d: Durable) {
    Listable(c, d) && LimitAccepted(c)
  }

  /** A recovery in which everything done so far has succeeded. */
  predicate OnTrack(c: Setup, s: World, pc: RecoverPc) {
    Validated(c.request) && Recovering(c, s, pc) && Cleared(s.d, pc) && Recoverable(c, s.d)
  }

  lemma DropProceeds(c: Setup, s: World, i: nat)
    requires OnTrack(c, s, DropListed(i)) && Ok(s.d, s.control)
    ensures OnTrack(c, Stepped(c, s), Following(DropListed(i)))
  {
    NextKeeps(c, s, Work(Quiet()));
    DropReclaims(c, s.d, i);
  }

  lemma DropReclaims(c: Setup, d: Durable, i: nat)
    requires Facts(c, d) && d.op == InProgress && i <= 4 && ReclaimedTo(d, i) && Listable(c, d)
    ensures var step := DropListedStep(c, d, true, i, Quiet());
      && step.control == Recover(Following(DropListed(i))) && step.d.op == InProgress && step.d.open == d.open
      && Rows(step.d) == Rows(d)
      && ReclaimedTo(step.d, if i < 4 then i + 1 else 4)
  {
    if i < 4 && i < |d.ledger| {
      assert EntryAgrees(c, d, i);
      ReclaimFrame(d, true, i, true, Quiet());
    }
  }

  lemma SweepProceeds(c: Setup, s: World, pc: RecoverPc)
    requires OnTrack(c, s, pc) && (pc.Kill? || pc.SandboxesGone? || pc.SweepSnapshot?) && Ok(s.d, s.control)
    ensures OnTrack(c, Stepped(c, s), Following(pc))
  {
    NextKeeps(c, s, Work(Quiet()));
  }

  lemma FirstProceeds(c: Setup, s: World, pc: RecoverPc)
    requires OnTrack(c, s, pc) && (pc.Inspect? || pc.Validate? || pc.AbortObjects?) && Ok(s.d, s.control)
    ensures OnTrack(c, Stepped(c, s), Following(pc))
  {
    NextKeeps(c, s, Work(Quiet()));
    PrefixAccepted(c, s.d);
  }

  lemma LastProceeds(c: Setup, s: World)
    requires OnTrack(c, s, Finish) && Ok(s.d, s.control)
    ensures Stepped(c, s).control == Idle && |Stepped(c, s).d.slots| == 4 && Stepped(c, s).d.op == FailedTerminal
  {
  }

  lemma {:induction false} Finishes(c: Setup, s: World, pc: RecoverPc, n: nat)
    requires OnTrack(c, s, pc) && n >= StepsLeft(pc)
    ensures Undisturbed(c, s, n).d.op == FailedTerminal
    decreases StepsLeft(pc), 1
  {
    NextKeeps(c, s, Crash);
    match pc
    case Finish => LastStep(c, s, n);
    case DropListed(i) =>
      DropProceeds(c, s, i);
      FinishesNext(c, s, Stepped(c, s), pc, n);
    case Inspect =>
      FirstProceeds(c, s, pc);
      FinishesNext(c, s, Stepped(c, s), pc, n);
    case Validate =>
      FirstProceeds(c, s, pc);
      FinishesNext(c, s, Stepped(c, s), pc, n);
    case AbortObjects =>
      FirstProceeds(c, s, pc);
      FinishesNext(c, s, Stepped(c, s), pc, n);
    case _ =>
      SweepProceeds(c, s, pc);
      FinishesNext(c, s, Stepped(c, s), pc, n);
  }

  lemma LastStep(c: Setup, s: World, n: nat)
    requires OnTrack(c, s, Finish) && Ok(s.d, s.control) && n > 0
    ensures Undisturbed(c, s, n).d.op == FailedTerminal
  {
    LastProceeds(c, s);
    UndisturbedBy(c, s, n);
    StaysFinished(c, Stepped(c, s), n - 1);
  }

  lemma {:induction false} FinishesNext(c: Setup, s: World, t: World, pc: RecoverPc, n: nat)
    requires Ok(s.d, s.control) && t == Stepped(c, s) && OnTrack(c, t, Following(pc)) && pc != Finish
    requires n >= StepsLeft(pc) > StepsLeft(Following(pc))
    ensures Undisturbed(c, s, n).d.op == FailedTerminal
    decreases StepsLeft(pc), 0
  {
    Finishes(c, t, Following(pc), n - 1);
    UndisturbedBy(c, s, n);
  }

  /** The holder crashes, and a request that is still unsettled lands or is dropped. */
  function Interrupted(c: Setup, s: World, landed: bool, id: nat): World
    requires Ok(s.d, s.control)
  {
    var t := Next(c, s, Crash);
    var i := |t.d.ledger|;
    Next(c, if landed then Next(c, t, Landing(i, id)) else t, Dropping(i))
  }

  /** A reconciler claims the operation and obtains the lock. */
  function TakenOver(c: Setup, s: World): World
    requires Ok(s.d, s.control)
  {
    Next(c, Next(c, s, Claim), Acquire(s.generation + 1))
  }

  lemma OnlyNextRequested(c: Setup, d: Durable)
    requires Facts(c, d)
    ensures AllBut(d, |d.ledger|)
  {
    forall j | 0 <= j < 4 && j != |d.ledger|
      ensures !d.slots[j].requested
    {
      assert j < |d.ledger| ==> EntryAgrees(c, d, j);
      assert j > |d.ledger| ==> Unborn(d.slots[j]);
    }
  }

  lemma InterruptedKeeps(c: Setup, s: World, landed: bool, id: nat)
    requires Inv(c, s)
    ensures Ok(s.d, s.control)
    ensures var t := Interrupted(c, s, landed, id);
      && Inv(c, t) && t.control == Idle && NothingRequested(t.d) && t.d.op == s.d.op
      && t.d.ledger == s.d.ledger && t.d.objects == s.d.objects
  {
    NextKeeps(c, s, Crash);
    var t := Next(c, s, Crash);
    NextKeeps(c, t, Landing(|t.d.ledger|, id));
    var u := if landed then Next(c, t, Landing(|t.d.ledger|, id)) else t;
    NextKeeps(c, u, Dropping(|t.d.ledger|));
    OnlyNextRequested(c, u.d);
  }

  lemma TakenOverInspects(c: Setup, s: World)
    requires Inv(c, s) && s.control == Idle && NothingRequested(s.d) && s.d.op == InProgress
    ensures Ok(s.d, s.control) && Recovering(c, TakenOver(c, s), Inspect) && TakenOver(c, s).d == s.d
    ensures TakenOver(c, s).generation > 0
  {
    NextKeeps(c, s, Claim);
    NextKeeps(c, Next(c, s, Claim), Acquire(s.generation + 1));
  }

  /** Wherever the coordinator or an earlier reconciler stopped, the provider entries are a
      prefix of owner snapshot, capture sandbox, result sandbox, result snapshot, and
      objects come only after all four.  A reconciler that takes over accepts the graph
      exactly if it can list it. */
  lemma AbandonedGraphIsAcceptedExactly(c: Setup, events: seq<Event>, landed: bool, id: nat)
    requires Validated(c.request) && After(c, events).d.op == InProgress
    ensures Ok(After(c, events).d, After(c, events).control)
    ensures var s := After(c, events); var t := Interrupted(c, s, landed, id);
      && Prefix(c, s.d) && Accepts(c, s.d) && Ok(t.d, t.control)
      && (Undisturbed(c, TakenOver(c, t), 2).control == Recover(AbortObjects) <==>
            |s.d.ledger| + s.d.objects <= c.limit)
  {
    Reachable(c, events);
    var s := After(c, events);
    PrefixAccepted(c, s.d);
    var t := Interrupted(c, s, landed, id);
    InterruptedKeeps(c, s, landed, id);
    TakenOverInspects(c, t);
    ValidatedExactly(c, TakenOver(c, t));
  }

  lemma ValidatedExactly(c: Setup, s: World)
    requires Validated(c.request) && Recovering(c, s, Inspect)
    ensures Undisturbed(c, s, 2).control == Recover(AbortObjects) <==> Listable(c, s.d)
  {
    NextKeeps(c, s, Work(Quiet()));
    UndisturbedBy(c, s, 2);
    var t := Stepped(c, s);
    NextKeeps(c, t, Work(Quiet()));
    UndisturbedBy(c, t, 1);
    PrefixAccepted(c, s.d);
  }

  // ---- Provisionings that no recovery finishes ----

  /** With a limit the object reclaimer refuses, a recovery gets no further than here. */
  predicate Early(pc: RecoverPc) {
    pc.Inspect? || pc.Validate? || pc.AbortObjects?
  }

  /** The coordinator, should it still come, has lost its claim, and the ledger cannot be
      worked off. */
  predicate Stuck(c: Setup, s: World) {
    && s.generation > 0 && (Coordinating(s.control) ==> s.owner == 0)
    && s.d.op == InProgress && !Recoverable(c, s.d)
    && (s.control.Recover? && !LimitAccepted(c) ==> Early(s.control.recover))
  }

  predicate SameRows(d: Durable, e: Durable) {
    e.op == d.op && |e.ledger| == |d.ledger| && e.objects == d.objects
  }

  lemma UnownedChangesNoRows(c: Setup, d: Durable, control: Control, l: Luck)
    requires Ok(d, control) && !control.Recover?
    ensures var step := WorkStep(c, d, false, control, l); SameRows(d, step.d) && !step.control.Recover?
  {
  }

  lemma RecoverStaysStuck(c: Setup, d: Durable, owns: bool, pc: RecoverPc, l: Luck)
    requires RecoverOk(d, pc) && d.op == InProgress && !Recoverable(c, d) && (!LimitAccepted(c) ==> Early(pc))
    ensures var step := RecoverStep(c, d, owns, pc, l);
      && SameRows(d, step.d) && !Coordinating(step.control)
      && (step.control.Recover? && !LimitAccepted(c) ==> Early(step.control.recover))
  {
  }

  lemma NextStaysStuck(c: Setup, s: World, e: Event)
    requires Ok(s.d, s.control) && Stuck(c, s)
    ensures Stuck(c, Next(c, s, e))
  {
    match e
    case Work(l) =>
      if s.control.Recover? {
        RecoverStaysStuck(c, s.d, Owns(s), s.control.recover, l);
      } else if Coordinating(s.control) {
        UnownedChangesNoRows(c, s.d, s.control, l);
      }
    case _ =>
  }

  /** What can happen from some state on. */
  function Later(c: Setup, s: World, events: seq<Event>): World {
    if events == [] then s
    else
      var t := Later(c, s, events[..|events| - 1]);
      if Ok(t.d, t.control) then Next(c, t, events[|events| - 1]) else t
  }

  lemma {:induction false} NeverRecovered(c: Setup, s: World, later: seq<Event>)
    requires Stuck(c, s)
    ensures Stuck(c, Later(c, s, later))
  {
    if later != [] {
      var t := Later(c, s, later[..|later| - 1]);
      NeverRecovered(c, s, later[..|later| - 1]);
      if Ok(t.d, t.control) {
        NextStaysStuck(c, t, later[|later| - 1]);
      }
    }
  }

  /** A reachable state of an unfinished provisioning, a crash, and a reconciler that takes
      over.  If the operation's ledger fits the limit, and the object reclaimer takes the
      limit, one undisturbed recovery records the provisioning as failed; if not, nothing
      that happens later ever finishes it. */
  lemma RecoveryCompletesExactly(c: Setup, events: seq<Event>, landed: bool, id: nat)
    requires Validated(c.request) && After(c, events).d.op == InProgress
    ensures Ok(After(c, events).d, After(c, events).control)
    ensures var s := After(c, events); var t := Interrupted(c, s, landed, id);
      && Ok(t.d, t.control)
      && if |s.d.ledger| + s.d.objects <= c.limit && 1 <= c.limit <= MAX_RECLAIM_BATCH
         then Undisturbed(c, TakenOver(c, t), 14).d.op == FailedTerminal
         else forall later :: Later(c, TakenOver(c, t), later).d.op == InProgress
  {
    Reachable(c, events);
    var s := After(c, events);
    var t := Interrupted(c, s, landed, id);
    InterruptedKeeps(c, s, landed, id);
    TakenOverInspects(c, t);
    if Recoverable(c, s.d) {
      Finishes(c, TakenOver(c, t), Inspect, 14);
    } else {
      forall later
        ensures Later(c, TakenOver(c, t), later).d.op == InProgress
      {
        NeverRecovered(c, TakenOver(c, t), later);
      }
    }
  }

  // ---- A failed operation's last ledger entry can stay unreclaimed ----

  lemma Continue(c: Setup, events: seq<Event>, s: World, e: Event) returns (longer: seq<Event>)
    requires After(c, events) == s && Ok(s.d, s.control)
    ensures After(c, longer) == Next(c, s, e)
  {
    longer := events + [e];
    assert longer[..|longer| - 1] == events;
  }

  function FirstSlot(stored: bool, requested: bool): seq<Slot> {
    [Slot(stored, stored, requested, 0), Slot(false, false, false, 0), Slot(false, false, false, 0),
     Slot(false, false, false, 0)]
  }

  function Coordinated(d: Durable, control: Control): World {
    World(d, 0, {}, 0, control)
  }

  /** The first resource has been created and is about to be recorded. */
  lemma FirstCreated(c: Setup) returns (events: seq<Event>)
    ensures After(c, events) == Coordinated(Empty().(slots := FirstSlot(true, false)), Run(Record(0)))
  {
    var d := Empty();
    events := Continue(c, [], Init(), Acquire(0));
    events := Continue(c, events, Coordinated(d, Run(Check)), Work(Quiet()));
    events := Continue(c, events, Coordinated(d, Run(Ask(0))), Work(Quiet()));
    var asked := d.(slots := FirstSlot(false, true));
    assert Next(c, Coordinated(d, Run(Ask(0))), Work(Quiet())) == Coordinated(asked, Run(Await(0)));
    events := Continue(c, events, Coordinated(asked, Run(Await(0))), Work(Quiet()));
  }

  /** The reply to recording the first resource is lost: the coordinator deletes the
      resource without knowing its entry and records the failure. */
  lemma LostRecordReply(c: Setup) returns (events: seq<Event>)
    ensures var d := After(c, events).d;
      d.op == FailedTerminal && |d.ledger| == 1 && d.ledger[0].state == Allocated
  {
    events := FirstCreated(c);
    var created := Empty().(slots := FirstSlot(true, false));
    events := Continue(c, events, Coordinated(created, Run(Record(0))), Work(Quiet().(tx := LostReply)));
    var listed := created.(ledger := [Entry(KindOf(0), 0, MetadataOf(c, 0), Allocated)]);
    var v := HeldUnknown(0);
    assert After(c, events) == Coordinated(listed, Clean(Abort, v));
    events := Continue(c, events, Coordinated(listed, Clean(Abort, v)), Work(Quiet()));
    assert After(c, events) == Coordinated(listed, Clean(DropHeld(1), v));
    events := Continue(c, events, Coordinated(listed, Clean(DropHeld(1), v)), Work(Quiet()));
    var gone := Gone(listed, 0);
    assert After(c, events) == Coordinated(gone, Clean(DropHeld(0), v));
    events := Continue(c, events, Coordinated(gone, Clean(DropHeld(0), v)), Work(Quiet()));
    events := Continue(c, events, Coordinated(gone, Clean(Fail, v)), Work(Quiet()));
  }

  // ---- A run whose ledger is over the limit ----

  function LuckWith(id: nat, preparing: Preparing): Event {
    Work(Luck(Done, Answered, id, preparing, 0))
  }

  function Made(c: Setup, d: Durable, i: nat): Durable
    requires i < 4 == |d.slots|
  {
    d.(slots := d.slots[i := Slot(true, true, false, i)],
       ledger := d.ledger + [Entry(KindOf(i), i, MetadataOf(c, i), Allocated)])
  }

  /** Every resource created so far has its position as its identifier; from `i` on there is
      none. */
  predicate MadeTo(d: Durable, i: nat) {
    && |d.slots| == 4 && d.op == InProgress && |d.ledger| == i
    && (forall j :: 0 <= j < 4 ==> d.slots[j].born ==> d.slots[j].id == j)
    && (forall j :: i <= j < 4 ==> Unborn(d.slots[j]))
  }

  /** Resource `i` is asked for, created and recorded. */
  lemma Make(c: Setup, before: seq<Event>, d: Durable, i: nat) returns (events: seq<Event>)
    requires i < 4 && MadeTo(d, i) && After(c, before) == Coordinated(d, Run(Ask(i)))
    ensures After(c, events) == Coordinated(Made(c, d, i), Run(AfterRecord(i))) && MadeTo(Made(c, d, i), i + 1)
  {
    var luck := LuckWith(i, GivenUp(0));
    events := Continue(c, before, Coordinated(d, Run(Ask(i))), luck);
    var asked := d.(slots := d.slots[i := d.slots[i].(requested := true)]);
    assert After(c, events) == Coordinated(asked, Run(Await(i)));
    events := Continue(c, events, Coordinated(asked, Run(Await(i))), luck);
    var created := d.(slots := d.slots[i := Slot(true, true, false, i)]);
    assert Land(asked, i, i) == created;
    assert After(c, events) == Coordinated(created, Run(Record(i)));
    events := Continue(c, events, Coordinated(created, Run(Record(i))), luck);
  }

  /** The capture resources have been made. */
  lemma CaptureMade(c: Setup) returns (events: seq<Event>, d: Durable)
    ensures After(c, events) == Coordinated(d, Run(Export)) && MadeTo(d, 2)
  {
    events := Continue(c, [], Init(), Acquire(0));
    events := Continue(c, events, Coordinated(Empty(), Run(Check)), Work(Quiet()));
    events := Make(c, events, Empty(), 0);
    var one := Made(c, Empty(), 0);
    events := Make(c, events, one, 1);
    d := Made(c, one, 1);
  }

  /** One of the two is discarded. */
  lemma DiscardOne(c: Setup, before: seq<Event>, d: Durable, i: nat) returns (events: seq<Event>)
    requires i < 2 && MadeTo(d, 2) && After(c, before) == Coordinated(d, Run(Discard(i)))
    ensures var e := Listed(Gone(d, i), i, Reclaimed);
      After(c, events) == Coordinated(e, if i == 1 then Run(Discard(0)) else Run(Ask(2))) && MadeTo(e, 2)
  {
    events := Continue(c, before, Coordinated(d, Run(Discard(i))), Work(Quiet()));
  }

  /** They have been used and discarded. */
  lemma Captured(c: Setup) returns (events: seq<Event>, d: Durable)
    ensures After(c, events) == Coordinated(d, Run(Ask(2))) && MadeTo(d, 2)
  {
    events, d := CaptureMade(c);
    events := Continue(c, events, Coordinated(d, Run(Export)), Work(Quiet()));
    assert After(c, events) == Coordinated(d, Run(Discard(1)));
    events := DiscardOne(c, events, d, 1);
    d := Listed(Gone(d, 1), 1, Reclaimed);
    events := DiscardOne(c, events, d, 0);
    d := Listed(Gone(d, 0), 0, Reclaimed);
  }

  /** All four resources have been made. */
  lemma AllMade(c: Setup) returns (events: seq<Event>, d: Durable)
    ensures After(c, events) == Coordinated(d, Run(Prepare)) && MadeTo(d, 4)
  {
    events, d := Captured(c);
    events := Make(c, events, d, 2);
    d := Made(c, d, 2);
    events := Continue(c, events, Coordinated(d, Run(Upload)), Work(Quiet()));
    assert After(c, events) == Coordinated(d, Run(Ask(3)));
    events := Make(c, events, d, 3);
    d := Made(c, d, 3);
  }

  /** Whatever the limit, there is a run that no recovery finishes: the objects of the
      prepared snapshot have filled the ledger, and the coordinator crashes. */
  lemma TooManyObjects(c: Setup) returns (events: seq<Event>)
    ensures var s := After(c, events);
      s.d.op == InProgress && s.control == Idle && |s.d.ledger| + s.d.objects > c.limit
  {
    var d;
    events, d := AllMade(c);
    events := Continue(c, events, Coordinated(d, Run(Prepare)), LuckWith(0, Ready(c.limit)));
    var prepared := d.(preparation := Prepared, objects := c.limit, open := c.limit);
    assert After(c, events) == Coordinated(prepared, Run(Commit));
    events := Continue(c, events, Coordinated(prepared, Run(Commit)), Crash);
  }
}
