/** Theorems about whole runs of the patch application protocol: what holds in every
    reachable state, that outcomes are final, and which interrupted runs a recovery can
    finish. */
module PatchApplyOutcome {
  import opened PatchApplicationRow
  import opened PatchApplyProtocol
  import opened PatchApplySafety

  lemma {:induction false} Reachable(setup: Setup, events: seq<Event>)
    ensures Inv(After(Init(setup), events)) && After(Init(setup), events).d.limit == setup.limit
  {
    if events != [] {
      var s := After(Init(setup), events[..|events| - 1]);
      Reachable(setup, events[..|events| - 1]);
      NextKeeps(s, events[|events| - 1]);
      LimitStays(s, events[|events| - 1]);
    }
  }

  lemma LimitStays(s: State, e: Event)
    ensures Next(s, e).d.limit == s.d.limit
  {
  }

  /** As long as nothing else has changed it, the sandbox agrees with the application row: it
      differs from the pre-apply contents only between the start of the swap and the end of a
      rollback.  As long as nothing else has moved it, the target's latest snapshot moves
      exactly with the checkpoint.  The rollback snapshot outlives every phase in which the
      sandbox might still have to be restored. */
  lemma RowTellsTheSandbox(setup: Setup, events: seq<Event>)
    ensures var d := After(Init(setup), events).d; var start := d.box.start;
      && (!d.box.touched ==>
            && (d.app.NoApplication? || At(d, Planned) || At(d, RollbackReady) || At(d, Failed) ==> d.box.now == start)
            && (At(d, Swapped) || At(d, Checkpointed) ==> d.box.now == Patched)
            && (At(d, RolledBack) ==> d.box.now == Source)
            && (start == Source && d.box.now != start ==>
                  At(d, SwapStarted) || At(d, Swapped) || At(d, Checkpointed) || At(d, RollbackStarted)))
      && (d.lease.latest != ForeignSnapshot ==> (d.lease.latest == ResultSnapshot <==> At(d, Checkpointed)))
      && (At(d, Checkpointed) ==> d.result.stored && d.objects == OwnedObjects)
      && (At(d, RollbackReady) || At(d, SwapStarted) || At(d, Swapped) || At(d, RollbackStarted) ==>
            d.rollback.stored)
  {
    Reachable(setup, events);
  }

  /** An operation recorded as failed is in none of the phases between, has never published
      its result, and leaves no provider snapshot behind, now or later. */
  lemma FailedLeavesNothing(setup: Setup, events: seq<Event>)
    requires After(Init(setup), events).d.op == FailedTerminal
    ensures var d := After(Init(setup), events).d;
      && (d.app.NoApplication? || At(d, Planned) || At(d, Failed) || At(d, RolledBack))
      && d.lease.latest != ResultSnapshot
      && !d.rollback.stored && !d.rollback.requested && !d.result.stored && !d.result.requested
  {
    Reachable(setup, events);
  }

  /** What a failed operation gives back, until something else changes it: the sandbox as it
      found it, or the contents of the snapshot it rolled back to. */
  lemma FailedGivesBack(setup: Setup, events: seq<Event>)
    requires After(Init(setup), events).d.op == FailedTerminal
    ensures var d := After(Init(setup), events).d;
      !d.box.touched ==> d.box.now == if At(d, RolledBack) then Source else d.box.start
  {
    Reachable(setup, events);
  }

  /** An operation recorded as applied has published its result, and of the two provider
      snapshots exactly the result is kept. */
  lemma AppliedIsPublished(setup: Setup, events: seq<Event>)
    requires After(Init(setup), events).d.op == Succeeded(Applied)
    ensures var d := After(Init(setup), events).d;
      && At(d, Checkpointed) && d.lease.latest != SourceSnapshot && (!d.box.touched ==> d.box.now == Patched)
      && d.result.stored && d.result.allocation == Adopted
      && !d.rollback.stored && d.rollback.allocation == Reclaimed
      && !d.rollback.requested && !d.result.requested
  {
    Reachable(setup, events);
  }

  /** When it is recorded, the result is the lease's latest snapshot. */
  lemma AppliedWhenLatest(setup: Setup, events: seq<Event>, e: Event)
    requires var s := After(Init(setup), events);
      s.d.op == InProgress && Next(s, e).d.op == Succeeded(Applied)
    ensures Next(After(Init(setup), events), e).d.lease.latest == ResultSnapshot
  {
    Reachable(setup, events);
    var s := After(Init(setup), events);
    if e.Work? {
      match s.control {
        case Run(pc) => RunApplies(s.d, Owns(s), pc, e.tx, e.call, e.load);
        case Clean(pc, v) => CleanApplies(s.d, Owns(s), pc, v, e.tx, e.call);
        case Recover(pc) => RecoverApplies(s.d, Owns(s), pc, e.tx, e.call);
        case _ =>
      }
    }
  }

  predicate AppliesWhenLatest(d: Durable, e: Durable) {
    d.op == InProgress && e.op == Succeeded(Applied) ==> e.lease.latest == ResultSnapshot
  }

  lemma RunApplies(d: Durable, owns: bool, pc: RunPc, tx: Tx, call: Call, load: Load)
    requires RunKnows(d, pc)
    ensures AppliesWhenLatest(d, RunStep(d, owns, pc, tx, call, load).d)
  {
  }

  lemma CleanApplies(d: Durable, owns: bool, pc: CleanPc, v: Vars, tx: Tx, call: Call)
    ensures AppliesWhenLatest(d, CleanStep(d, owns, pc, v, tx, call).d)
  {
  }

  lemma RecoverApplies(d: Durable, owns: bool, pc: RecoverPc, tx: Tx, call: Call)
    requires RecoverKnows(d, pc)
    ensures AppliesWhenLatest(d, RecoverStep(d, owns, pc, tx, call).d)
  {
  }

  // ---- Objects of a failed application ----

  /** When the coordinator records a failure, objects are left behind exactly if preparing
      the snapshot had thrown, after inserting its row, anything but the error that says
      everything was given up.  The child coordinator asks for that error before it
      records a failure; this one does not. */
  lemma CoordinatorLeavesObjectsExactly(setup: Setup, events: seq<Event>, tx: Tx, call: Call, load: Load)
    requires var s := After(Init(setup), events);
      && s.control.Clean? && s.control.clean == Fail && s.d.op == InProgress
      && Next(s, Work(tx, call, load)).d.op == FailedTerminal
    ensures var s := After(Init(setup), events); var preparation := s.control.vars.preparation;
      Next(s, Work(tx, call, load)).d.objects != NoObjects <==>
        preparation.Threw? && !preparation.aborted && preparation.inserted
  {
    Reachable(setup, events);
  }

  /** A reconciler records a failure only when no object is left. */
  lemma ReconcilerLeavesNoObjects(setup: Setup, events: seq<Event>, tx: Tx, call: Call, load: Load)
    requires var s := After(Init(setup), events);
      && s.control.Recover? && s.d.op == InProgress && Next(s, Work(tx, call, load)).d.op == FailedTerminal
    ensures Next(After(Init(setup), events), Work(tx, call, load)).d.objects == NoObjects
  {
    var s := After(Init(setup), events);
    OnlyAbandonFails(s.d, Owns(s), s.control.recover, tx, call);
  }

  lemma OnlyAbandonFails(d: Durable, owns: bool, pc: RecoverPc, tx: Tx, call: Call)
    ensures var e := RecoverStep(d, owns, pc, tx, call).d;
      d.op != FailedTerminal && e.op == FailedTerminal ==> pc == Abandon && e.objects == NoObjects
  {
  }

  lemma Continue(s0: State, events: seq<Event>, s: State, e: Event) returns (longer: seq<Event>)
    requires After(s0, events) == s
    ensures After(s0, longer) == Next(s, e)
  {
    longer := events + [e];
    assert longer[..|longer| - 1] == events;
  }

  /** The coordinator holds the lock at generation 0. */
  function Holding(d: Durable, control: Control): State {
    State(d, 0, {}, 0, control)
  }

  function Kept(allocation: Allocation): Snapshot {
    Snapshot(true, false, allocation)
  }

  function Never(): Snapshot {
    Snapshot(false, false, Unlisted)
  }

  function InPhase(setup: Setup, phase: Phase, rollback: Rollback, now: Workspace,
                   r: Snapshot, q: Snapshot): Durable {
    Durable(setup.limit, InProgress, Application(Row(phase, rollback)), Sandbox(setup.start, now, false),
            Lease(SourceSnapshot, true, true), r, q, NoObjects, 0)
  }

  function Holds(d: Durable, objects: Objects, listed: nat): Durable {
    d.(objects := objects, listed := listed)
  }

  function Fine(): Event {
    Work(Committed, Answered, Load(true, 0))
  }

  lemma PlannedAndHeld(setup: Setup) returns (events: seq<Event>)
    ensures After(Init(setup), events) ==
            Holding(InPhase(setup, Planned, NoRollback, setup.start, Kept(Unlisted), Never()), Run(LedgerRollback))
  {
    events := Continue(Init(setup), [], Init(setup), Acquire(0));
    events := Continue(Init(setup), events, Holding(Init(setup).d, Run(Plan)), Fine());
    var planned := InPhase(setup, Planned, NoRollback, setup.start, Never(), Never());
    assert After(Init(setup), events) == Holding(planned, Run(AskRollback));
    events := Continue(Init(setup), events, Holding(planned, Run(AskRollback)), Fine());
    var asked := planned.(rollback := Snapshot(false, true, Unlisted));
    assert After(Init(setup), events) == Holding(asked, Run(AwaitRollback));
    events := Continue(Init(setup), events, Holding(asked, Run(AwaitRollback)), Fine());
  }

  lemma SwappedIn(setup: Setup) returns (events: seq<Event>)
    ensures After(Init(setup), events) ==
            Holding(InPhase(setup, Swapped, Identity(), Patched, Kept(Allocated), Never()), Run(Observe))
  {
    events := PlannedAndHeld(setup);
    var held := InPhase(setup, Planned, NoRollback, setup.start, Kept(Unlisted), Never());
    events := Continue(Init(setup), events, Holding(held, Run(LedgerRollback)), Fine());
    var ready := InPhase(setup, RollbackReady, Identity(), setup.start, Kept(Allocated), Never());
    assert After(Init(setup), events) == Holding(ready, Run(StartSwap));
    events := Continue(Init(setup), events, Holding(ready, Run(StartSwap)), Fine());
    var started := InPhase(setup, SwapStarted, Identity(), setup.start, Kept(Allocated), Never());
    assert After(Init(setup), events) == Holding(started, Run(Swap));
    events := Continue(Init(setup), events, Holding(started, Run(Swap)), Fine());
    var swapped := started.(box := Sandbox(setup.start, Patched, false));
    events := Continue(Init(setup), events, Holding(swapped, Run(EndSwap)), Fine());
  }

  /** The result snapshot is ledgered and its objects are about to be prepared. */
  lemma ResultLedgered(setup: Setup) returns (events: seq<Event>)
    ensures After(Init(setup), events) ==
            Holding(InPhase(setup, Swapped, Identity(), Patched, Kept(Allocated), Kept(Allocated)), Run(Prepare))
  {
    events := SwappedIn(setup);
    var swapped := InPhase(setup, Swapped, Identity(), Patched, Kept(Allocated), Never());
    events := Continue(Init(setup), events, Holding(swapped, Run(Observe)), Fine());
    events := Continue(Init(setup), events, Holding(swapped, Run(AskResult)), Fine());
    var asked := swapped.(result := Snapshot(false, true, Unlisted));
    assert After(Init(setup), events) == Holding(asked, Run(AwaitResult));
    events := Continue(Init(setup), events, Holding(asked, Run(AwaitResult)), Fine());
    var held := swapped.(result := Kept(Unlisted));
    assert After(Init(setup), events) == Holding(held, Run(LedgerResult));
    events := Continue(Init(setup), events, Holding(held, Run(LedgerResult)), Fine());
  }

  /** Preparing has failed, and so has giving up; the sandbox has been rolled back. */
  lemma UndoneAfterwards(setup: Setup) returns (events: seq<Event>)
    ensures After(Init(setup), events) ==
            Holding(Holds(InPhase(setup, RolledBack, Identity(), Source, Kept(Allocated), Kept(Allocated)),
                          OpenObjects, 1),
                    Clean(AbortPrepared, Vars(true, Ledgered, Ledgered, Threw(false, true), false, false, true)))
  {
    events := ResultLedgered(setup);
    var listed := InPhase(setup, Swapped, Identity(), Patched, Kept(Allocated), Kept(Allocated));
    events := Continue(Init(setup), events, Holding(listed, Run(Prepare)), Work(Committed, Unanswered, Load(true, 1)));
    var d := Holds(listed, OpenObjects, 1);
    var v := Vars(true, Ledgered, Ledgered, Threw(false, true), false, false, false);
    assert After(Init(setup), events) == Holding(d, Clean(Caught, v));
    events := Continue(Init(setup), events, Holding(d, Clean(Caught, v)), Fine());
    assert After(Init(setup), events) == Holding(d, Clean(BeginUndo, v));
    events := Continue(Init(setup), events, Holding(d, Clean(BeginUndo, v)), Fine());
    var undoing := d.(app := Application(Row(RollbackStarted, Identity())));
    assert After(Init(setup), events) == Holding(undoing, Clean(Undo, v));
    events := Continue(Init(setup), events, Holding(undoing, Clean(Undo, v)), Fine());
    var undone := undoing.(box := Sandbox(setup.start, Source, false));
    events := Continue(Init(setup), events, Holding(undone, Clean(EndUndo, v)), Fine());
  }

  /** From every start there is a run in which the operation is recorded as failed, its
      objects remain, and the sandbox holds the snapshot it was rolled back to. */
  lemma FailedWithObjects(setup: Setup) returns (events: seq<Event>)
    ensures var d := After(Init(setup), events).d;
      && d.op == FailedTerminal && d.objects == OpenObjects && d.listed > 0
      && d.box == Sandbox(setup.start, Source, false)
  {
    events := UndoneAfterwards(setup);
    var d := Holds(InPhase(setup, RolledBack, Identity(), Source, Kept(Allocated), Kept(Allocated)), OpenObjects, 1);
    var v := Vars(true, Ledgered, Ledgered, Threw(false, true), false, false, true);
    events := Continue(Init(setup), events, Holding(d, Clean(AbortPrepared, v)), Fine());
    events := Continue(Init(setup), events, Holding(d, Clean(DropResult, v)), Fine());
    var e := d.(result := Snapshot(false, false, Reclaimed));
    assert After(Init(setup), events) == Holding(e, Clean(DropRestored, v));
    events := Continue(Init(setup), events, Holding(e, Clean(DropRestored, v)), Fine());
    var f := e.(rollback := Snapshot(false, false, Reclaimed));
    assert After(Init(setup), events) == Holding(f, Clean(SweepRollback, v));
    events := Continue(Init(setup), events, Holding(f, Clean(SweepRollback, v)), Fine());
    events := Continue(Init(setup), events, Holding(f, Clean(SweepResult, v)), Fine());
    events := Continue(Init(setup), events, Holding(f, Clean(Fail, v)), Fine());
  }

  // ---- What a failed application gives back ----

  /** Whatever happens, an operation planned on these contents that fails gives them back,
      unless something else changes the sandbox. */
  ghost predicate FailureRestores(limit: nat, contents: Workspace) {
    forall first, events ::
      var d := After(Init(Setup(first, limit)), events).d;
      d.op == FailedTerminal && !d.box.touched && d.box.start == contents ==> d.box.now == contents
  }

  /** Exactly a sandbox that has not drifted from its latest snapshot is given back by every
      failure. */
  lemma FailureRestoresExactly(limit: nat, contents: Workspace)
    ensures FailureRestores(limit, contents) <==> contents == Source
  {
    if contents == Source {
      forall first, events | After(Init(Setup(first, limit)), events).d.op == FailedTerminal
        ensures var d := After(Init(Setup(first, limit)), events).d;
          !d.box.touched && d.box.start == contents ==> d.box.now == contents
      {
        FailedGivesBack(Setup(first, limit), events);
      }
    } else {
      var events := FailedWithObjects(Setup(contents, limit));
      assert After(Init(Setup(contents, limit)), events).d.box.now != contents;
    }
  }

  // ---- The fence ----

  predicate SameRecords(d: Durable, e: Durable) {
    && e.op == d.op && e.app == d.app && e.lease == d.lease
    && e.rollback.allocation == d.rollback.allocation && e.result.allocation == d.result.allocation
  }

  lemma RunFenced(d: Durable, pc: RunPc, tx: Tx, call: Call, load: Load)
    ensures SameRecords(d, RunStep(d, false, pc, tx, call, load).d)
  {
  }

  lemma CleanFenced(d: Durable, pc: CleanPc, v: Vars, tx: Tx, call: Call)
    ensures SameRecords(d, CleanStep(d, false, pc, v, tx, call).d)
  {
  }

  lemma RecoverFenced(d: Durable, pc: RecoverPc, tx: Tx, call: Call)
    ensures SameRecords(d, RecoverStep(d, false, pc, tx, call).d)
  {
  }

  /** A holder whose claim has been superseded, or whose operation is over, changes
      neither the operation, the row, the latest snapshot nor the ledger. */
  lemma SupersededIsFenced(s: State, tx: Tx, call: Call, load: Load)
    requires !Owns(s)
    ensures SameRecords(s.d, Next(s, Work(tx, call, load)).d)
  {
    match s.control
    case Run(pc) => RunFenced(s.d, pc, tx, call, load);
    case Clean(pc, v) => CleanFenced(s.d, pc, v, tx, call);
    case Recover(pc) => RecoverFenced(s.d, pc, tx, call);
    case _ =>
  }

  // ---- Outcomes are final ----

  /** One event moves the row as the database's trigger allows, and the operation only out
      of progress. */
  predicate Moves(d: Durable, e: Durable) {
    && (d.app.Application? ==> e.app.Application? && TriggerAllows(d.app.row.phase, e.app.row.phase))
    && (d.op != InProgress ==> e.op == d.op)
  }

  lemma RunMoves(d: Durable, owns: bool, pc: RunPc, tx: Tx, call: Call, load: Load)
    requires RunKnows(d, pc) && (owns ==> d.op.InProgress?)
    ensures Moves(d, RunStep(d, owns, pc, tx, call, load).d)
  {
  }

  lemma CleanMoves(d: Durable, owns: bool, pc: CleanPc, v: Vars, tx: Tx, call: Call)
    requires owns ==> d.op.InProgress?
    ensures Moves(d, CleanStep(d, owns, pc, v, tx, call).d)
  {
  }

  lemma RecoverMoves(d: Durable, owns: bool, pc: RecoverPc, tx: Tx, call: Call)
    requires owns ==> d.op.InProgress?
    ensures Moves(d, RecoverStep(d, owns, pc, tx, call).d)
  {
  }

  lemma NextMoves(s: State, e: Event)
    requires Inv(s)
    ensures Moves(s.d, Next(s, e).d)
  {
    match e
    case Work(tx, call, load) =>
      match s.control {
        case Run(pc) => RunMoves(s.d, Owns(s), pc, tx, call, load);
        case Clean(pc, v) => CleanMoves(s.d, Owns(s), pc, v, tx, call);
        case Recover(pc) => RecoverMoves(s.d, Owns(s), pc, tx, call);
        case _ =>
      }
    case _ =>
  }

  /** Whatever happens afterwards, a finished operation keeps its answer and a terminal
      phase stays. */
  lemma {:induction false} OutcomeIsFinal(setup: Setup, events: seq<Event>, i: nat)
    requires i <= |events|
    ensures var d := After(Init(setup), events[..i]).d; var e := After(Init(setup), events).d;
      && (d.op != InProgress ==> e.op == d.op)
      && (d.app.Application? && Terminal(d.app.row.phase) ==>
            e.app.Application? && e.app.row.phase == d.app.row.phase)
  {
    if i == |events| {
      assert events[..i] == events;
    } else {
      var before := events[..|events| - 1];
      assert before[..i] == events[..i];
      OutcomeIsFinal(setup, before, i);
      Reachable(setup, before);
      NextMoves(After(Init(setup), before), events[|events| - 1]);
    }
  }

  // ---- Which interrupted runs can be finished ----

  /** `n` steps of the lock holder in which nothing goes wrong. */
  function Undisturbed(s: State, n: nat): State
    decreases n
  {
    if n == 0 then s else Undisturbed(Next(s, Fine()), n - 1)
  }

  predicate Recovering(s: State, pc: RecoverPc) {
    Inv(s) && s.control == Recover(pc) && Owns(s)
  }

  lemma {:induction false} StaysFinished(s: State, n: nat)
    requires s.control == Idle
    ensures Undisturbed(s, n) == s
  {
    if n > 0 {
      assert Next(s, Fine()) == s;
      StaysFinished(s, n - 1);
    }
  }

  function Stepped(s: State): State {
    Next(s, Fine())
  }

  /** The step that follows, and how many are left. */
  function Following(pc: RecoverPc): RecoverPc {
    match pc
    case Verify => TidyRollback case TidyRollback => TidySweep case TidySweep => Finish
    case Resolve => ReBegin case ReBegin => ReUndo case ReUndo => ReEnd case ReEnd => Validate
    case ReFail => Validate case Validate => ReDropRollback case ReDropRollback => ReDropResult
    case ReDropResult => ReSweepRollback case ReSweepRollback => ReSweepResult case _ => Abandon
  }

  function StepsLeft(pc: RecoverPc): nat {
    match pc
    case Verify => 4 case TidyRollback => 3 case TidySweep => 2 case Finish => 1
    case Resolve => 10 case ReBegin => 9 case ReUndo => 8 case ReEnd => 7 case ReFail => 7
    case Validate => 6 case ReDropRollback => 5 case ReDropResult => 4
    case ReSweepRollback => 3 case ReSweepResult => 2 case Abandon => 1
    case Inspect => 11
  }

  predicate Last(pc: RecoverPc) {
    pc.Abandon? || pc.Finish?
  }

  /** The lease is still as the phase needs it. */
  predicate LeaseFits(d: Durable) {
    (Unsettled(d) ==> RestorableOn(d.lease)) && (At(d, Checkpointed) ==> PublishedOn(d.lease))
  }

  /** The ledger can be listed, what is to be reclaimed can be, and the lease fits. */
  predicate Recoverable(d: Durable) {
    Listable(d) && Reclaimable(d) && LeaseFits(d)
  }

  /** A recovery in which everything done so far has succeeded. */
  predicate OnTrack(s: State, pc: RecoverPc) {
    && Recovering(s, pc) && pc != Inspect && Recoverable(s.d) && (pc.Resolve? ==> s.d.lease.quiet)
    && (pc.ReDropResult? || pc.TidySweep? || pc.Finish? ==> Drained(s.d.rollback))
    && (pc.ReSweepRollback? || pc.ReSweepResult? || pc.Abandon? ==> Drained(s.d.rollback) && Drained(s.d.result))
  }

  lemma CleanupProceeds(s: State, pc: RecoverPc)
    requires OnTrack(s, pc) && (pc.Validate? || pc.ReDropRollback? || pc.ReDropResult?)
    ensures OnTrack(Stepped(s), Following(pc))
  {
    NextKeeps(s, Fine());
  }

  lemma SweepProceeds(s: State, pc: RecoverPc)
    requires OnTrack(s, pc) && (pc.ReSweepRollback? || pc.ReSweepResult? || pc.Abandon?)
    ensures if Last(pc) then Stepped(s).control == Idle && Stepped(s).d.op == FailedTerminal
            else OnTrack(Stepped(s), Following(pc))
  {
    NextKeeps(s, Fine());
  }

  lemma CheckpointProceeds(s: State, pc: RecoverPc)
    requires OnTrack(s, pc) && (pc.Verify? || pc.TidyRollback? || pc.TidySweep? || pc.Finish?)
    ensures if Last(pc) then Stepped(s).control == Idle && Stepped(s).d.op == Succeeded(Applied)
            else OnTrack(Stepped(s), Following(pc))
  {
    NextKeeps(s, Fine());
  }

  lemma UndoProceeds(s: State, pc: RecoverPc)
    requires OnTrack(s, pc) && (pc.Resolve? || pc.ReBegin? || pc.ReUndo? || pc.ReEnd? || pc.ReFail?)
    ensures OnTrack(Stepped(s), Following(pc))
  {
    NextKeeps(s, Fine());
  }

  predicate Completing(pc: RecoverPc) {
    pc.Verify? || pc.TidyRollback? || pc.TidySweep? || pc.Finish?
  }

  lemma UndisturbedBy(s: State, n: nat)
    requires n > 0
    ensures Undisturbed(s, n) == Undisturbed(Stepped(s), n - 1)
  {
  }

  lemma {:induction false} Finishes(s: State, pc: RecoverPc, n: nat)
    requires OnTrack(s, pc) && n >= StepsLeft(pc)
    ensures Undisturbed(s, n).d.op == if Completing(pc) then Succeeded(Applied) else FailedTerminal
    decreases StepsLeft(pc)
  {
    Proceeds(s, pc);
    if Last(pc) {
      LastStep(s, n);
    } else {
      FollowingIsNearer(pc);
      Finishes(Stepped(s), Following(pc), n - 1);
      UndisturbedBy(s, n);
    }
  }

  lemma FollowingIsNearer(pc: RecoverPc)
    requires !Last(pc) && pc != Inspect
    ensures StepsLeft(pc) == StepsLeft(Following(pc)) + 1 && (Completing(Following(pc)) <==> Completing(pc))
  {
  }

  lemma LastStep(s: State, n: nat)
    requires n > 0 && Stepped(s).control == Idle
    ensures Undisturbed(s, n) == Stepped(s)
  {
    UndisturbedBy(s, n);
    StaysFinished(Stepped(s), n - 1);
  }

  lemma Proceeds(s: State, pc: RecoverPc)
    requires OnTrack(s, pc)
    ensures if Last(pc)
            then && Stepped(s).control == Idle
                 && Stepped(s).d.op == if Completing(pc) then Succeeded(Applied) else FailedTerminal
            else OnTrack(Stepped(s), Following(pc))
  {
    if Completing(pc) {
      CheckpointProceeds(s, pc);
    } else if pc.Validate? || pc.ReDropRollback? || pc.ReDropResult? {
      CleanupProceeds(s, pc);
    } else if pc.ReSweepRollback? || pc.ReSweepResult? || pc.Abandon? {
      SweepProceeds(s, pc);
    } else {
      UndoProceeds(s, pc);
    }
  }

  /** Where an inspection leads. */
  function FirstStep(d: Durable): RecoverPc {
    if d.app.NoApplication? then ReSweepRollback
    else match d.app.row.phase
      case Checkpointed => Verify
      case Planned => ReFail
      case RolledBack => Validate
      case Failed => Validate
      case _ => Resolve
  }

  lemma InspectProceeds(s: State)
    requires Recovering(s, Inspect) && Recoverable(s.d) && (Unsettled(s.d) ==> s.d.lease.quiet)
    ensures OnTrack(Stepped(s), FirstStep(s.d))
  {
    NextKeeps(s, Fine());
  }

  lemma InspectFinishes(s: State)
    requires Recovering(s, Inspect) && Recoverable(s.d) && (Unsettled(s.d) ==> s.d.lease.quiet)
    ensures Undisturbed(s, 11).d.op == if At(s.d, Checkpointed) then Succeeded(Applied) else FailedTerminal
  {
    UndisturbedBy(s, 11);
    InspectProceeds(s);
    Finishes(Stepped(s), FirstStep(s.d), 10);
  }

  /** The holder crashes and its requests settle one way or the other. */
  function Interrupted(s: State, landRollback: bool, landResult: bool): State {
    Next(Next(Next(s, Crash), if landRollback then Land(RollbackKind) else Drop(RollbackKind)),
         if landResult then Land(ResultKind) else Drop(ResultKind))
  }

  /** A reconciler claims the operation and obtains the lock. */
  function TakenOver(s: State): State {
    Next(Next(s, Claim), Acquire(s.generation + 1))
  }

  predicate SameLedger(d: Durable, e: Durable) {
    && e.limit == d.limit && e.app == d.app && e.op == d.op && e.objects == d.objects && e.listed == d.listed
    && e.lease == d.lease
    && e.rollback.allocation == d.rollback.allocation && e.result.allocation == d.result.allocation
  }

  lemma SettlesRollback(s: State, land: bool)
    requires Inv(s) && s.control == Idle
    ensures var t := Next(s, if land then Land(RollbackKind) else Drop(RollbackKind));
      && Inv(t) && t.control == Idle && !t.d.rollback.requested
      && t.d.result == s.d.result && SameLedger(s.d, t.d) && t.waiting == s.waiting
  {
    NextKeeps(s, if land then Land(RollbackKind) else Drop(RollbackKind));
  }

  lemma SettlesResult(s: State, land: bool)
    requires Inv(s) && s.control == Idle
    ensures var t := Next(s, if land then Land(ResultKind) else Drop(ResultKind));
      && Inv(t) && t.control == Idle && !t.d.result.requested
      && t.d.rollback == s.d.rollback && SameLedger(s.d, t.d) && t.waiting == s.waiting
  {
    NextKeeps(s, if land then Land(ResultKind) else Drop(ResultKind));
  }

  lemma CrashKeeps(s: State)
    requires Inv(s)
    ensures Inv(Next(s, Crash)) && Next(s, Crash).control == Idle && Next(s, Crash).d == s.d
    ensures Next(s, Crash).waiting == s.waiting
  {
  }

  lemma InterruptedKeeps(s: State, landRollback: bool, landResult: bool)
    requires Inv(s)
    ensures var t := Interrupted(s, landRollback, landResult);
      Inv(t) && t.control == Idle && NothingRequested(t.d) && SameLedger(s.d, t.d) && t.waiting == s.waiting
  {
    CrashKeeps(s);
    var s1 := Next(s, Crash);
    SettlesRollback(s1, landRollback);
    SettlesResult(Next(s1, if landRollback then Land(RollbackKind) else Drop(RollbackKind)), landResult);
  }

  lemma TakenOverInspects(s: State)
    requires Inv(s) && s.control == Idle && NothingRequested(s.d) && s.d.op == InProgress
    ensures Recovering(TakenOver(s), Inspect) && TakenOver(s).d == s.d
  {
    NextKeeps(s, Claim);
    NextKeeps(Next(s, Claim), Acquire(s.generation + 1));
  }

  /** The gate refuses a recovery that would have to write to the sandbox of a lease that is
      not quiescent. */
  lemma GateRefuses(s: State)
    requires Recovering(s, Inspect) && Unsettled(s.d) && !s.d.lease.quiet
    ensures Undisturbed(s, 11).d.op == InProgress && Undisturbed(s, 11).control == Idle
  {
    var s1 := Stepped(s);
    NextKeeps(s, Fine());
    assert s1.control == Recover(Resolve) && s1.d == s.d;
    var s2 := Stepped(s1);
    assert s2.control == Idle && s2.d == s.d;
    UndisturbedBy(s, 11);
    UndisturbedBy(s1, 10);
    StaysFinished(s2, 9);
  }

  // ---- Runs that no recovery finishes ----

  /** With a lease that does not fit, a recovery gets no further than here. */
  predicate Early(pc: RecoverPc) {
    pc.Inspect? || pc.Resolve? || pc.Verify?
  }

  /** The coordinator is gone, and the ledger cannot be worked off or the lease has moved on. */
  predicate Stuck(s: State) {
    && (s.control.Idle? || s.control.Recover?) && 0 !in s.waiting
    && s.d.op == InProgress && !Recoverable(s.d)
    && (s.control.Recover? && !LeaseFits(s.d) ==> Early(s.control.recover))
  }

  lemma LedgerStaysStuck(d: Durable, owns: bool, pc: RecoverPc, tx: Tx, call: Call)
    requires d.op == InProgress && !(Listable(d) && Reclaimable(d)) && Facts(d) && RecoverKnows(d, pc)
    requires !LeaseFits(d) ==> Early(pc)
    ensures var step := RecoverStep(d, owns, pc, tx, call);
      && step.d.op == InProgress && !(Listable(step.d) && Reclaimable(step.d))
      && (step.control.Idle? || step.control.Recover?)
      && (step.control.Recover? && !LeaseFits(step.d) ==> Early(step.control.recover))
  {
  }

  lemma LeaseStaysStuck(d: Durable, owns: bool, pc: RecoverPc, tx: Tx, call: Call)
    requires d.op == InProgress && !LeaseFits(d) && RecoverKnows(d, pc) && Early(pc)
    ensures var step := RecoverStep(d, owns, pc, tx, call);
      && step.d == d && (step.control.Idle? || (step.control.Recover? && Early(step.control.recover)))
  {
  }

  lemma NextStaysStuck(s: State, e: Event)
    requires Inv(s) && Stuck(s)
    ensures Stuck(Next(s, e))
  {
    match e
    case Work(tx, call, load) =>
      if s.control.Recover? {
        if LeaseFits(s.d) {
          LedgerStaysStuck(s.d, Owns(s), s.control.recover, tx, call);
        } else {
          LeaseStaysStuck(s.d, Owns(s), s.control.recover, tx, call);
        }
      }
    case _ =>
  }

  lemma {:induction false} NeverRecovered(s: State, later: seq<Event>)
    requires Inv(s) && Stuck(s)
    ensures Inv(After(s, later)) && Stuck(After(s, later))
  {
    if later != [] {
      var t := After(s, later[..|later| - 1]);
      NeverRecovered(s, later[..|later| - 1]);
      NextKeeps(t, later[|later| - 1]);
      NextStaysStuck(t, later[|later| - 1]);
    }
  }

  /** A coordinator that has not started has listed nothing. */
  lemma UnstartedIsRecoverable(s: State)
    requires Inv(s) && 0 in s.waiting
    ensures Recoverable(s.d)
  {
  }

  /** What the recovery of an operation in this state depends on: its ledger fits the limit;
      the limit suits the object reclaimer wherever objects are to be reclaimed; and where the
      sandbox may have been written to, the lease is open and its latest snapshot is still the
      one the row names, the plan's before the checkpoint and the result after it. */
  predicate CanRecover(d: Durable) {
    && Rows(d) <= d.limit && (d.objects == OpenObjects ==> 1 <= d.limit <= MAX_RECLAIM_BATCH)
    && (At(d, RollbackReady) || At(d, SwapStarted) || At(d, Swapped) || At(d, RollbackStarted) ==>
          d.lease.open && d.lease.latest == SourceSnapshot)
    && (At(d, Checkpointed) ==> d.lease.open && d.lease.latest == ResultSnapshot)
  }

  /** A reachable state of an unfinished operation, a crash, and a reconciler that takes over.
      If the operation can be recovered, one undisturbed recovery finishes it, as applied
      exactly when the checkpoint had been committed, and otherwise as failed; unless the
      interaction gate holds it up, which only a lease that is not quiescent does, and only
      where the sandbox is to be written to.  If it cannot be recovered, nothing that happens
      later ever finishes it. */
  lemma RecoveryCompletesExactly(setup: Setup, events: seq<Event>, landRollback: bool, landResult: bool)
    requires After(Init(setup), events).d.op == InProgress
    ensures var s := After(Init(setup), events); var t := TakenOver(Interrupted(s, landRollback, landResult));
      if CanRecover(s.d)
      then Undisturbed(t, 11).d.op ==
             if Unsettled(s.d) && !s.d.lease.quiet then InProgress
             else if At(s.d, Checkpointed) then Succeeded(Applied) else FailedTerminal
      else forall later :: After(t, later).d.op == InProgress
  {
    Reachable(setup, events);
    var s := After(Init(setup), events);
    InterruptedKeeps(s, landRollback, landResult);
    var u := Interrupted(s, landRollback, landResult);
    TakenOverInspects(u);
    if !Recoverable(s.d) {
      StuckFromThere(s, u);
    } else if Unsettled(s.d) && !s.d.lease.quiet {
      GateRefuses(TakenOver(u));
    } else {
      InspectFinishes(TakenOver(u));
    }
  }

  lemma StuckFromThere(s: State, u: State)
    requires Inv(s) && s.d.op == InProgress && !Recoverable(s.d) && SameLedger(s.d, u.d) && u.waiting == s.waiting
    requires Recovering(TakenOver(u), Inspect) && TakenOver(u).d == u.d
    ensures forall later :: After(TakenOver(u), later).d.op == InProgress
  {
    if 0 in s.waiting {
      UnstartedIsRecoverable(s);
      assert false;
    }
    forall later
      ensures After(TakenOver(u), later).d.op == InProgress
    {
      NeverRecovered(TakenOver(u), later);
    }
  }

  // ---- Whether it can still be finished at all ----

  lemma {:induction false} UndisturbedIsRun(s: State, n: nat) returns (later: seq<Event>)
    ensures After(s, later) == Undisturbed(s, n)
    decreases n
  {
    if n == 0 {
      later := [];
    } else {
      var rest := UndisturbedIsRun(Stepped(s), n - 1);
      later := [Fine()] + rest;
      AfterFirst(s, Fine(), rest);
    }
  }

  lemma {:induction false} AfterFirst(s: State, e: Event, rest: seq<Event>)
    ensures After(s, [e] + rest) == After(Next(s, e), rest)
  {
    var all := [e] + rest;
    if rest == [] {
      assert all[..|all| - 1] == [];
    } else {
      assert all[..|all| - 1] == [e] + rest[..|rest| - 1];
      AfterFirst(s, e, rest[..|rest| - 1]);
    }
  }

  ghost predicate Finishable(s: State) {
    exists later :: After(s, later).d.op != InProgress
  }

  lemma FinishableFirst(s: State, e: Event)
    requires Finishable(Next(s, e))
    ensures Finishable(s)
  {
    var later :| After(Next(s, e), later).d.op != InProgress;
    AfterFirst(s, e, later);
  }

  lemma FinishableByRecovery(s: State)
    requires Recovering(s, Inspect) && Recoverable(s.d) && (Unsettled(s.d) ==> s.d.lease.quiet)
    ensures Finishable(s)
  {
    InspectFinishes(s);
    var later := UndisturbedIsRun(s, 11);
  }

  /** After a crash, once the lease has become quiescent, another reconciler takes over. */
  lemma FinishableAfterwards(s: State)
    requires Recovering(s, Inspect) && Recoverable(s.d)
    ensures Finishable(s)
  {
    CrashKeeps(s);
    var s1 := Next(s, Crash);
    NextKeeps(s1, Interact(true));
    var s2 := Next(s1, Interact(true));
    assert NothingRequested(s2.d);
    TakenOverInspects(s2);
    var s3 := Next(s2, Claim);
    FinishableByRecovery(TakenOver(s2));
    FinishableFirst(s3, Acquire(s2.generation + 1));
    FinishableFirst(s2, Claim);
    FinishableFirst(s1, Interact(true));
    FinishableFirst(s, Crash);
  }

  /** Once its coordinator has crashed, an unfinished operation can be finished by some
      continuation exactly if it can be recovered. */
  lemma FinishableExactly(setup: Setup, events: seq<Event>, landRollback: bool, landResult: bool)
    requires After(Init(setup), events).d.op == InProgress
    ensures var s := After(Init(setup), events);
      Finishable(TakenOver(Interrupted(s, landRollback, landResult))) <==> CanRecover(s.d)
  {
    Reachable(setup, events);
    var s := After(Init(setup), events);
    InterruptedKeeps(s, landRollback, landResult);
    var u := Interrupted(s, landRollback, landResult);
    TakenOverInspects(u);
    if Recoverable(s.d) {
      FinishableAfterwards(TakenOver(u));
    } else {
      StuckFromThere(s, u);
    }
  }

  // ---- How it comes that it cannot ----

  /** Whatever the limit, there is such a run: the checkpoint is committed, its objects have
      filled the ledger, and the coordinator crashes. */
  lemma TooManyObjects(setup: Setup) returns (events: seq<Event>)
    ensures var s := After(Init(setup), events); At(s.d, Checkpointed) && Rows(s.d) > setup.limit && Stuck(s)
  {
    events := ResultLedgered(setup);
    var listed := InPhase(setup, Swapped, Identity(), Patched, Kept(Allocated), Kept(Allocated));
    events := Continue(Init(setup), events, Holding(listed, Run(Prepare)),
                       Work(Committed, Answered, Load(true, setup.limit)));
    var d := Holds(listed, OpenObjects, setup.limit);
    assert After(Init(setup), events) == Holding(d, Run(Commit));
    events := Continue(Init(setup), events, Holding(d, Run(Commit)), Fine());
    events := Continue(Init(setup), events, After(Init(setup), events), Crash);
  }

  /** A preparation that was given up keeps its rows: there is such a run without a single
      object left. */
  lemma GivenUpFillsLedger(setup: Setup) returns (events: seq<Event>)
    ensures var s := After(Init(setup), events);
      At(s.d, Swapped) && s.d.objects == NoObjects && Rows(s.d) > setup.limit && Stuck(s)
  {
    events := ResultLedgered(setup);
    var listed := InPhase(setup, Swapped, Identity(), Patched, Kept(Allocated), Kept(Allocated));
    events := Continue(Init(setup), events, Holding(listed, Run(Prepare)),
                       Work(Committed, Partly(Source), Load(true, setup.limit)));
    events := Continue(Init(setup), events, After(Init(setup), events), Crash);
  }

  /** The coordinator crashes with the sandbox swapped, and before a reconciler comes another
      operation checkpoints the lease: the swap is never rolled back, though the ledger has
      one row. */
  lemma LeaseMovesOn(setup: Setup) returns (events: seq<Event>)
    ensures var s := After(Init(setup), events);
      At(s.d, Swapped) && Rows(s.d) == 1 && s.d.box.now == Patched && s.d.lease.open && Stuck(s)
  {
    events := SwappedIn(setup);
    var d := InPhase(setup, Swapped, Identity(), Patched, Kept(Allocated), Never());
    events := Continue(Init(setup), events, Holding(d, Run(Observe)), Crash);
    events := Continue(Init(setup), events, Holding(d, Idle), MoveLatest);
  }

  /** Or the lease is released after the checkpoint: the operation is never recorded as
      applied. */
  lemma LeaseCloses(setup: Setup) returns (events: seq<Event>)
    ensures var s := After(Init(setup), events); At(s.d, Checkpointed) && Rows(s.d) == 2 && Stuck(s)
  {
    events := ResultLedgered(setup);
    var d := InPhase(setup, Swapped, Identity(), Patched, Kept(Allocated), Kept(Allocated));
    events := Continue(Init(setup), events, Holding(d, Run(Prepare)), Fine());
    var prepared := Holds(d, OpenObjects, 0);
    assert After(Init(setup), events) == Holding(prepared, Run(Commit));
    events := Continue(Init(setup), events, Holding(prepared, Run(Commit)), Fine());
    events := Continue(Init(setup), events, After(Init(setup), events), Crash);
    events := Continue(Init(setup), events, After(Init(setup), events), CloseLease);
  }
}
