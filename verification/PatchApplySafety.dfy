/** What every reachable state of the patch application protocol satisfies. */
module PatchApplySafety {
  import opened PatchApplicationRow
  import opened PatchApplyProtocol

  predicate Untouched(d: Durable) {
    d.app.NoApplication? || At(d, Planned) || At(d, Failed)
  }

  /** The phases in which the sandbox may have been written and is not yet settled. */
  predicate Unsettled(d: Durable) {
    At(d, RollbackReady) || At(d, SwapStarted) || At(d, Swapped) || At(d, RollbackStarted)
  }

  predicate Settled(d: Durable) {
    At(d, RolledBack) || At(d, Failed)
  }

  predicate NothingRequested(d: Durable) {
    !d.rollback.requested && !d.result.requested
  }

  predicate NothingStored(d: Durable) {
    !d.rollback.stored && !d.result.stored
  }

  // ---- Durable state ----

  predicate SandboxAgrees(d: Durable) {
    && (d.app.NoApplication? ==> !d.box.touched)
    && (!d.box.touched ==>
          && (Untouched(d) || At(d, RollbackReady) ==> d.box.now == d.box.start)
          && (At(d, RolledBack) ==> d.box.now == Source)
          && (At(d, Swapped) || At(d, Checkpointed) ==> d.box.now == Patched))
  }

  /** Until something else moves it, the latest snapshot moves with the checkpoint. */
  predicate LeaseAgrees(d: Durable) {
    && (d.app.NoApplication? ==> d.lease.latest == SourceSnapshot)
    && (d.lease.latest == ResultSnapshot ==> At(d, Checkpointed))
    && (d.lease.latest == SourceSnapshot ==> !At(d, Checkpointed))
  }

  /** A listed snapshot has no unsettled request, and a reclaimed one is gone. */
  predicate Listed(snapshot: Snapshot) {
    && (!snapshot.allocation.Unlisted? ==> !snapshot.requested)
    && (snapshot.allocation.Reclaimed? ==> !snapshot.stored)
  }

  predicate LedgerAgrees(d: Durable) {
    && Listed(d.rollback) && Listed(d.result)
    && (d.app.Application? ==> RowConstraint(d.app.row))
    && (!d.rollback.allocation.Unlisted? <==> d.app.Application? && d.app.row.rollback.Recorded?)
    && !d.rollback.allocation.Adopted?
    && (d.result.allocation.Adopted? <==> At(d, Checkpointed))
    && (!d.result.allocation.Unlisted? ==>
          At(d, Swapped) || At(d, Checkpointed) || At(d, RollbackStarted) || At(d, RolledBack))
    && (d.listed > 0 ==> !d.result.allocation.Unlisted?)
  }

  predicate InventoryAgrees(d: Durable) {
    && (d.app.NoApplication? ==> NothingStored(d) && NothingRequested(d))
    && (Unsettled(d) ==> d.rollback.stored)
    && (At(d, Checkpointed) ==> d.result.stored && NothingRequested(d))
  }

  predicate ObjectsAgree(d: Durable) {
    && (d.objects == OwnedObjects <==> At(d, Checkpointed))
    && (d.objects == OpenObjects ==> At(d, Swapped) || At(d, RollbackStarted) || At(d, RolledBack))
    && (d.objects == OpenObjects ==> !d.result.allocation.Unlisted?)
  }

  predicate OutcomeAgrees(d: Durable) {
    match d.op
    case InProgress => true
    case Succeeded(NotApplied) => d.app.NoApplication?
    case Succeeded(Applied) => At(d, Checkpointed) && d.rollback.allocation.Reclaimed?
    case FailedTerminal => (Untouched(d) || At(d, RolledBack)) && NothingStored(d) && NothingRequested(d)
  }

  predicate Facts(d: Durable) {
    SandboxAgrees(d) && LeaseAgrees(d) && LedgerAgrees(d) && InventoryAgrees(d) && ObjectsAgree(d) && OutcomeAgrees(d)
  }

  // ---- What the worker holding the lock knows ----

  predicate RunKnows(d: Durable, pc: RunPc) {
    && (pc != Plan ==> d.op.InProgress?)
    && (pc != AwaitRollback && pc != AwaitResult ==> NothingRequested(d))
    && (pc != DropRollback && pc != Complete ==> (d.objects == OpenObjects <==> pc == Commit))
    && match pc
       case Plan => d.app.NoApplication?
       case AskRollback => At(d, Planned)
       case AwaitRollback => At(d, Planned) && !d.result.requested
       case LedgerRollback => At(d, Planned) && d.rollback.stored
       case StartSwap => At(d, RollbackReady)
       case Swap => At(d, SwapStarted)
       case EndSwap => At(d, SwapStarted) && d.box.now == Patched
       case Observe => At(d, Swapped) && d.result.allocation.Unlisted?
       case AskResult => At(d, Swapped) && d.result.allocation.Unlisted?
       case AwaitResult => At(d, Swapped) && d.result.allocation.Unlisted?
       case LedgerResult => At(d, Swapped) && d.result.allocation.Unlisted? && d.result.stored
       case Prepare => At(d, Swapped) && d.result.allocation.Allocated? && d.result.stored
       case Commit => At(d, Swapped) && d.result.allocation.Allocated? && d.result.stored
       case DropRollback => At(d, Checkpointed) && d.lease.latest == ResultSnapshot
       case Complete =>
         At(d, Checkpointed) && d.lease.latest == ResultSnapshot && d.rollback.allocation.Reclaimed?
  }

  /** Preparing threw after its row was inserted, and not to say that everything was given
      up. */
  predicate LeftBehind(preparation: Preparation) {
    preparation.Threw? && !preparation.aborted && preparation.inserted
  }

  /** The coordinator's variables never claim less than it did. */
  predicate Honest(d: Durable, v: Vars) {
    && (!v.ambiguous ==> NothingRequested(d))
    && (!v.rollback.Ledgered? ==> d.rollback.allocation.Unlisted?)
    && (!v.result.Ledgered? ==> d.result.allocation.Unlisted?)
    && (!v.mutation ==> v.rollback.NotHeld? && v.result.NotHeld?)
    && !At(d, Checkpointed)
    && (LeftBehind(v.preparation) ==> d.objects == OpenObjects)
    && (d.objects == OpenObjects ==> LeftBehind(v.preparation) || v.preparation.Prepared?)
  }

  /** Undoing is over, or was given up with `failed` set. */
  predicate Cleaning(d: Durable, v: Vars) {
    && (!v.failed ==> v.restored)
    && (v.restored ==> !Unsettled(d))
    && (d.op.InProgress? || d.app.NoApplication?)
  }

  /** What was prepared has been aborted, unless that failed. */
  predicate Aborted(d: Durable, v: Vars) {
    !v.failed ==> (d.objects == OpenObjects <==> LeftBehind(v.preparation))
  }

  predicate CleanKnows(d: Durable, pc: CleanPc, v: Vars) {
    && Honest(d, v)
    && match pc
       case Caught =>
         && !Settled(d) && !At(d, RollbackStarted)
         && (d.op.InProgress? || d.app.NoApplication?)
         && (v.mutation ==> d.app.Application? && d.op.InProgress?)
         && (!v.rollback.Ledgered? ==> !Unsettled(d))
       case FailPlanned => d.op.InProgress? && At(d, Planned) && v.restored
       case BeginUndo =>
         d.op.InProgress? && !Settled(d) && d.app.Application? && !v.restored && v.rollback.Ledgered?
       case Undo => d.op.InProgress? && At(d, RollbackStarted) && !v.restored
       case EndUndo => d.op.InProgress? && At(d, RollbackStarted) && !v.restored && d.box.now == Source
       case AbortPrepared => Cleaning(d, v)
       case DropResult => Cleaning(d, v) && Aborted(d, v)
       case DropRestored => Cleaning(d, v) && Aborted(d, v) && (!v.failed ==> Drained(d.result))
       case SweepRollback => Cleaning(d, v) && Aborted(d, v) && (!v.failed ==> Drained(d.result) && Drained(d.rollback))
       case SweepResult =>
         && Cleaning(d, v) && Aborted(d, v) && (!v.failed ==> Drained(d.result))
         && (!v.failed && !v.ambiguous ==> !d.rollback.stored)
       case Fail => Cleaning(d, v) && Aborted(d, v) && (!v.failed && !v.ambiguous ==> NothingStored(d))
  }

  predicate Pending(snapshot: Snapshot) {
    snapshot.stored ==> snapshot.allocation.Allocated?
  }

  predicate Cleared(d: Durable) {
    (Settled(d) || d.app.NoApplication?) && d.objects == NoObjects
  }

  predicate RecoverKnows(d: Durable, pc: RecoverPc) {
    && NothingRequested(d)
    && (pc != Inspect ==> d.op.InProgress?)
    && match pc
       case Inspect => true
       case Verify => At(d, Checkpointed)
       case TidyRollback => At(d, Checkpointed) && d.lease.latest == ResultSnapshot
       case TidySweep => At(d, Checkpointed) && d.lease.latest == ResultSnapshot
       case Finish => At(d, Checkpointed) && d.lease.latest == ResultSnapshot
       case Resolve => Unsettled(d)
       case ReBegin => Unsettled(d)
       case ReUndo => At(d, RollbackStarted)
       case ReEnd => At(d, RollbackStarted) && d.box.now == Source
       case ReFail => At(d, Planned)
       case Validate => Settled(d)
       case ReDropRollback => Settled(d) && d.objects == NoObjects
       case ReDropResult => Settled(d) && d.objects == NoObjects
       case ReSweepRollback => Cleared(d)
       case ReSweepResult => Cleared(d) && Pending(d.rollback)
       case Abandon => Cleared(d) && Pending(d.rollback) && Pending(d.result)
  }

  predicate Knows(d: Durable, control: Control) {
    match control
    case Idle => true
    case Run(pc) => RunKnows(d, pc)
    case LateCaught =>
      && NothingRequested(d)
      && (At(d, Checkpointed) ==> d.lease.latest == ResultSnapshot)
      && (At(d, Checkpointed) || (At(d, Swapped) && d.op.InProgress? && d.objects == OpenObjects))
    case LateDrop => At(d, Checkpointed) && d.lease.latest == ResultSnapshot
    case LateComplete =>
      At(d, Checkpointed) && d.lease.latest == ResultSnapshot && d.rollback.allocation.Reclaimed?
    case Clean(pc, vars) => CleanKnows(d, pc, vars)
    case Recover(pc) => RecoverKnows(d, pc)
  }

  predicate Good(step: Step) {
    Facts(step.d) && Knows(step.d, step.control)
  }

  // ---- Every event keeps the invariant ----

  lemma SnapshotRequestKeeps(d: Durable, owns: bool, pc: RunPc, tx: Tx, call: Call, load: Load)
    requires Facts(d) && RunKnows(d, pc) && (owns ==> d.op.InProgress?)
    requires pc.Plan? || pc.AskRollback? || pc.AskResult?
    ensures Good(RunStep(d, owns, pc, tx, call, load))
  {
  }

  lemma AwaitingKeeps(d: Durable, owns: bool, pc: RunPc, tx: Tx, call: Call, load: Load)
    requires Facts(d) && RunKnows(d, pc) && (owns ==> d.op.InProgress?)
    requires pc.AwaitRollback? || pc.AwaitResult?
    ensures Good(RunStep(d, owns, pc, tx, call, load))
  {
  }

  lemma LedgerKeeps(d: Durable, owns: bool, pc: RunPc, tx: Tx, call: Call, load: Load)
    requires Facts(d) && RunKnows(d, pc) && (owns ==> d.op.InProgress?)
    requires pc.LedgerRollback? || pc.LedgerResult?
    ensures Good(RunStep(d, owns, pc, tx, call, load))
  {
  }

  lemma SwapKeeps(d: Durable, owns: bool, pc: RunPc, tx: Tx, call: Call, load: Load)
    requires Facts(d) && RunKnows(d, pc) && (owns ==> d.op.InProgress?)
    requires pc.Swap?
    ensures Good(RunStep(d, owns, pc, tx, call, load))
  {
  }

  lemma StartSwapKeeps(d: Durable, owns: bool, pc: RunPc, tx: Tx, call: Call, load: Load)
    requires Facts(d) && RunKnows(d, pc) && (owns ==> d.op.InProgress?)
    requires pc.StartSwap?
    ensures Good(RunStep(d, owns, pc, tx, call, load))
  {
  }

  lemma SwappedKeeps(d: Durable, owns: bool, pc: RunPc, tx: Tx, call: Call, load: Load)
    requires Facts(d) && RunKnows(d, pc) && (owns ==> d.op.InProgress?)
    requires pc.EndSwap? || pc.Observe?
    ensures Good(RunStep(d, owns, pc, tx, call, load))
  {
  }

  lemma CommitKeeps(d: Durable, owns: bool, pc: RunPc, tx: Tx, call: Call, load: Load)
    requires Facts(d) && RunKnows(d, pc) && (owns ==> d.op.InProgress?)
    requires pc.Prepare? || pc.Commit?
    ensures Good(RunStep(d, owns, pc, tx, call, load))
  {
  }

  lemma CompleteKeeps(d: Durable, owns: bool, pc: RunPc, tx: Tx, call: Call, load: Load)
    requires Facts(d) && RunKnows(d, pc) && (owns ==> d.op.InProgress?)
    requires pc.DropRollback? || pc.Complete?
    ensures Good(RunStep(d, owns, pc, tx, call, load))
  {
  }

  lemma CaughtKeeps(d: Durable, owns: bool, pc: CleanPc, v: Vars, tx: Tx, call: Call)
    requires Facts(d) && CleanKnows(d, pc, v) && (owns ==> d.op.InProgress?)
    requires pc.Caught? || pc.FailPlanned?
    ensures Good(CleanStep(d, owns, pc, v, tx, call))
  {
  }

  lemma BeginUndoKeeps(d: Durable, owns: bool, pc: CleanPc, v: Vars, tx: Tx, call: Call)
    requires Facts(d) && CleanKnows(d, pc, v) && (owns ==> d.op.InProgress?)
    requires pc.BeginUndo?
    ensures Good(CleanStep(d, owns, pc, v, tx, call))
  {
  }

  lemma UndoKeeps(d: Durable, owns: bool, pc: CleanPc, v: Vars, tx: Tx, call: Call)
    requires Facts(d) && CleanKnows(d, pc, v) && (owns ==> d.op.InProgress?)
    requires pc.Undo?
    ensures Good(CleanStep(d, owns, pc, v, tx, call))
  {
  }

  lemma EndUndoKeeps(d: Durable, owns: bool, pc: CleanPc, v: Vars, tx: Tx, call: Call)
    requires Facts(d) && CleanKnows(d, pc, v) && (owns ==> d.op.InProgress?)
    requires pc.EndUndo?
    ensures Good(CleanStep(d, owns, pc, v, tx, call))
  {
  }

  /** Giving up the objects of a snapshot that was not published. */
  lemma NoObjectsKeeps(d: Durable)
    requires Facts(d) && !At(d, Checkpointed)
    ensures Facts(d.(objects := NoObjects))
  {
  }

  lemma AbortPreparedKeeps(d: Durable, owns: bool, pc: CleanPc, v: Vars, tx: Tx, call: Call)
    requires Facts(d) && CleanKnows(d, pc, v) && (owns ==> d.op.InProgress?)
    requires pc.AbortPrepared?
    ensures Good(CleanStep(d, owns, pc, v, tx, call))
  {
    NoObjectsKeeps(d);
  }

  /** Taking something away from a snapshot: nothing is stored, requested or listed anew. */
  predicate Less(r: Snapshot, snapshot: Snapshot) {
    && Listed(r) && r.requested == snapshot.requested && (r.stored ==> snapshot.stored)
    && (r.allocation == snapshot.allocation || (r.allocation.Reclaimed? && !snapshot.allocation.Unlisted?))
  }

  lemma LessResult(d: Durable, r: Snapshot)
    requires Facts(d) && !At(d, Checkpointed) && Less(r, d.result)
    ensures Facts(d.(result := r))
  {
  }

  lemma LessRollback(d: Durable, r: Snapshot)
    requires Facts(d) && !Unsettled(d) && Less(r, d.rollback)
    ensures Facts(d.(rollback := r))
  {
  }

  lemma ReclaimIsLess(snapshot: Snapshot, owns: bool, ledgered: bool, tx: Tx, call: Call)
    requires Listed(snapshot)
    ensures Less(Reclaim(snapshot, owns, ledgered, tx, call), snapshot)
    ensures ReclaimSeen(snapshot, owns, ledgered, tx, call) ==>
              !Reclaim(snapshot, owns, ledgered, tx, call).stored
    ensures ReclaimSeen(snapshot, owns, ledgered, tx, call) && (ledgered || snapshot.allocation.Unlisted?) ==>
              Drained(Reclaim(snapshot, owns, ledgered, tx, call))
  {
  }

  lemma DropResultKeeps(d: Durable, owns: bool, v: Vars, tx: Tx, call: Call)
    requires Facts(d) && CleanKnows(d, DropResult, v) && (owns ==> d.op.InProgress?)
    ensures Good(CleanStep(d, owns, DropResult, v, tx, call))
  {
    ReclaimIsLess(d.result, owns, v.result.Ledgered?, tx, call);
    LessResult(d, Reclaim(d.result, owns, v.result.Ledgered?, tx, call));
  }

  lemma DropRestoredKeeps(d: Durable, owns: bool, v: Vars, tx: Tx, call: Call)
    requires Facts(d) && CleanKnows(d, DropRestored, v) && (owns ==> d.op.InProgress?)
    ensures Good(CleanStep(d, owns, DropRestored, v, tx, call))
  {
    ReclaimIsLess(d.rollback, owns, v.rollback.Ledgered?, tx, call);
    if v.restored {
      LessRollback(d, Reclaim(d.rollback, owns, v.rollback.Ledgered?, tx, call));
    }
  }

  lemma SweepRollbackKeeps(d: Durable, owns: bool, pc: CleanPc, v: Vars, tx: Tx, call: Call)
    requires Facts(d) && CleanKnows(d, pc, v) && (owns ==> d.op.InProgress?)
    requires pc.SweepRollback?
    ensures Good(CleanStep(d, owns, pc, v, tx, call))
  {
  }

  lemma SweepResultKeeps(d: Durable, owns: bool, pc: CleanPc, v: Vars, tx: Tx, call: Call)
    requires Facts(d) && CleanKnows(d, pc, v) && (owns ==> d.op.InProgress?)
    requires pc.SweepResult? || pc.Fail?
    ensures Good(CleanStep(d, owns, pc, v, tx, call))
  {
  }

  lemma RecoverCheckpointKeeps(d: Durable, owns: bool, pc: RecoverPc, tx: Tx, call: Call)
    requires Facts(d) && RecoverKnows(d, pc) && (owns ==> d.op.InProgress?)
    requires pc.Inspect? || pc.Verify? || pc.TidyRollback? || pc.TidySweep? || pc.Finish?
    ensures Good(RecoverStep(d, owns, pc, tx, call))
  {
  }

  lemma RecoverSandboxKeeps(d: Durable, owns: bool, pc: RecoverPc, tx: Tx, call: Call)
    requires Facts(d) && RecoverKnows(d, pc) && (owns ==> d.op.InProgress?)
    requires pc.Resolve? || pc.ReUndo? || pc.ReFail?
    ensures Good(RecoverStep(d, owns, pc, tx, call))
  {
  }

  lemma RecoverPhaseKeeps(d: Durable, owns: bool, pc: RecoverPc, tx: Tx, call: Call)
    requires Facts(d) && RecoverKnows(d, pc) && (owns ==> d.op.InProgress?)
    requires pc.ReBegin? || pc.ReEnd?
    ensures Good(RecoverStep(d, owns, pc, tx, call))
  {
  }

  lemma RecoverDropKeeps(d: Durable, owns: bool, pc: RecoverPc, tx: Tx, call: Call)
    requires Facts(d) && RecoverKnows(d, pc) && (owns ==> d.op.InProgress?)
    requires pc.Validate? || pc.ReDropRollback? || pc.ReDropResult?
    ensures Good(RecoverStep(d, owns, pc, tx, call))
  {
  }

  lemma RecoverSweepKeeps(d: Durable, owns: bool, pc: RecoverPc, tx: Tx, call: Call)
    requires Facts(d) && RecoverKnows(d, pc) && (owns ==> d.op.InProgress?)
    requires pc.ReSweepRollback? || pc.ReSweepResult? || pc.Abandon?
    ensures Good(RecoverStep(d, owns, pc, tx, call))
  {
  }

  lemma LateKeeps(d: Durable, owns: bool, control: Control, tx: Tx, call: Call, load: Load)
    requires Facts(d) && Knows(d, control) && (owns ==> d.op.InProgress?)
    requires control.LateCaught? || control.LateDrop? || control.LateComplete?
    ensures Good(WorkStep(d, owns, control, tx, call, load))
  {
  }

  lemma WorkKeeps(d: Durable, owns: bool, control: Control, tx: Tx, call: Call, load: Load)
    requires Facts(d) && Knows(d, control) && (owns ==> d.op.InProgress?)
    ensures Good(WorkStep(d, owns, control, tx, call, load))
  {
    match control
    case Idle =>
    case Run(pc) => RunKeeps(d, owns, pc, tx, call, load);
    case Clean(pc, v) => CleanKeeps(d, owns, pc, v, tx, call);
    case Recover(pc) => RecoverKeeps(d, owns, pc, tx, call);
    case _ => LateKeeps(d, owns, control, tx, call, load);
  }

  lemma RunKeeps(d: Durable, owns: bool, pc: RunPc, tx: Tx, call: Call, load: Load)
    requires Facts(d) && RunKnows(d, pc) && (owns ==> d.op.InProgress?)
    ensures Good(RunStep(d, owns, pc, tx, call, load))
  {
    if pc.Plan? || pc.AskRollback? || pc.AskResult? {
      SnapshotRequestKeeps(d, owns, pc, tx, call, load);
    } else if pc.AwaitRollback? || pc.AwaitResult? {
      AwaitingKeeps(d, owns, pc, tx, call, load);
    } else if pc.LedgerRollback? || pc.LedgerResult? {
      LedgerKeeps(d, owns, pc, tx, call, load);
    } else if pc.StartSwap? {
      StartSwapKeeps(d, owns, pc, tx, call, load);
    } else if pc.Swap? {
      SwapKeeps(d, owns, pc, tx, call, load);
    } else if pc.EndSwap? || pc.Observe? {
      SwappedKeeps(d, owns, pc, tx, call, load);
    } else if pc.Prepare? || pc.Commit? {
      CommitKeeps(d, owns, pc, tx, call, load);
    } else {
      CompleteKeeps(d, owns, pc, tx, call, load);
    }
  }

  lemma CleanKeeps(d: Durable, owns: bool, pc: CleanPc, v: Vars, tx: Tx, call: Call)
    requires Facts(d) && CleanKnows(d, pc, v) && (owns ==> d.op.InProgress?)
    ensures Good(CleanStep(d, owns, pc, v, tx, call))
  {
    match pc
    case BeginUndo => BeginUndoKeeps(d, owns, pc, v, tx, call);
    case Undo => UndoKeeps(d, owns, pc, v, tx, call);
    case EndUndo => EndUndoKeeps(d, owns, pc, v, tx, call);
    case AbortPrepared => AbortPreparedKeeps(d, owns, pc, v, tx, call);
    case DropResult => DropResultKeeps(d, owns, v, tx, call);
    case DropRestored => DropRestoredKeeps(d, owns, v, tx, call);
    case SweepRollback => SweepRollbackKeeps(d, owns, pc, v, tx, call);
    case SweepResult => SweepResultKeeps(d, owns, pc, v, tx, call);
    case Fail => SweepResultKeeps(d, owns, pc, v, tx, call);
    case _ => CaughtKeeps(d, owns, pc, v, tx, call);
  }

  lemma RecoverKeeps(d: Durable, owns: bool, pc: RecoverPc, tx: Tx, call: Call)
    requires Facts(d) && RecoverKnows(d, pc) && (owns ==> d.op.InProgress?)
    ensures Good(RecoverStep(d, owns, pc, tx, call))
  {
    if pc.Inspect? || pc.Verify? || pc.TidyRollback? || pc.TidySweep? || pc.Finish? {
      RecoverCheckpointKeeps(d, owns, pc, tx, call);
    } else if pc.Validate? || pc.ReDropRollback? || pc.ReDropResult? {
      RecoverDropKeeps(d, owns, pc, tx, call);
    } else if pc.ReSweepRollback? || pc.ReSweepResult? || pc.Abandon? {
      RecoverSweepKeeps(d, owns, pc, tx, call);
    } else if pc.ReBegin? || pc.ReEnd? {
      RecoverPhaseKeeps(d, owns, pc, tx, call);
    } else {
      RecoverSandboxKeeps(d, owns, pc, tx, call);
    }
  }

  // ---- Whole runs ----

  predicate Inv(s: State) {
    Facts(s.d) && Knows(s.d, s.control) && (0 in s.waiting ==> s.d.app.NoApplication? && !Coordinating(s.control))
  }

  predicate Coordinating(control: Control) {
    control.Run? || control.Clean?
  }

  lemma RollbackSettles(d: Durable, control: Control, e: Durable)
    requires Facts(d) && Knows(d, control)
    requires e == d.(rollback := Settle(d.rollback)) || e == d.(rollback := d.rollback.(requested := false))
    ensures Facts(e) && Knows(e, control)
  {
  }

  lemma ResultSettles(d: Durable, control: Control, e: Durable)
    requires Facts(d) && Knows(d, control)
    requires e == d.(result := Settle(d.result)) || e == d.(result := d.result.(requested := false))
    ensures Facts(e) && Knows(e, control)
  {
  }

  /** What others do while the lock is free. */
  lemma OthersKeep(d: Durable, content: Workspace)
    requires Facts(d)
    ensures Facts(Touched(d, content)) && Facts(Overtaken(d))
    ensures forall open, quiet :: Facts(d.(lease := Lease(d.lease.latest, open, quiet)))
  {
    forall open, quiet
      ensures Facts(d.(lease := Lease(d.lease.latest, open, quiet)))
    {
      LeaseAloneKeeps(d, Lease(d.lease.latest, open, quiet));
    }
  }

  lemma LeaseAloneKeeps(d: Durable, lease: Lease)
    requires Facts(d) && lease.latest == d.lease.latest
    ensures Facts(d.(lease := lease))
  {
  }

  lemma NextKeeps(s: State, e: Event)
    requires Inv(s)
    ensures Inv(Next(s, e))
  {
    match e
    case Work(tx, call, load) => WorkKeeps(s.d, Owns(s), s.control, tx, call, load);
    case Land(RollbackKind) => RollbackSettles(s.d, s.control, Next(s, e).d);
    case Land(ResultKind) => ResultSettles(s.d, s.control, Next(s, e).d);
    case Drop(RollbackKind) => RollbackSettles(s.d, s.control, Next(s, e).d);
    case Drop(ResultKind) => ResultSettles(s.d, s.control, Next(s, e).d);
    case Touch(content) => OthersKeep(s.d, content);
    case MoveLatest => OthersKeep(s.d, Source);
    case CloseLease => OthersKeep(s.d, Source);
    case Interact(quiet) => OthersKeep(s.d, Source);
    case _ =>
  }
}
