/** One durable patch application as a state machine: the operation's journal row, the
    application row, the sandbox and the provider, driven by the coordinator that claimed
    the operation and by any number of reconcilers that take it over.

    Only the holder of the lease's session lock takes steps; it can crash at any point and
    a crash frees the lock.  Whenever the lock is free, other operations on the lease and
    commands in the sandbox can do their work, without looking at this operation: change the
    sandbox, move the lease's latest snapshot, close the lease.  A claim, which moves the
    fence to a new generation, can happen at any time.  A transaction is atomic, but its
    reply can be lost.  A provider call can fail with or without effect, and an upload can
    leave any content behind. */
module PatchApplyProtocol {
  import opened PatchApplicationRow

  // ---- What survives a crash ----

  /** Workspace contents: what the target's latest snapshot holds, what the plan produces,
      or anything else. */
  datatype Workspace = Source | Patched | Other(id: nat)

  /** The lease's latest snapshot: the one the plan started from, this operation's result, or
      another operation's. */
  datatype Latest = SourceSnapshot | ResultSnapshot | ForeignSnapshot

  /** The target lease: whether it is active or paused, and whether no command is running or
      unaccounted for. */
  datatype Lease = Lease(latest: Latest, open: bool, quiet: bool)

  /** The target's sandbox: what it held when the application was planned, what it holds, and
      whether anything else has changed it since it was planned or last uploaded to. */
  datatype Sandbox = Sandbox(start: Workspace, now: Workspace, touched: bool)

  datatype Answer = Applied | NotApplied

  datatype Operation = InProgress | Succeeded(answer: Answer) | FailedTerminal

  datatype Application = NoApplication | Application(row: Row)

  /** The operation's ledger entry for a provider snapshot. */
  datatype Allocation = Unlisted | Allocated | Adopted | Reclaimed

  /** One provider snapshot: whether the provider has it, whether a request for it is still
      unsettled, and what the ledger says. */
  datatype Snapshot = Snapshot(stored: bool, requested: bool, allocation: Allocation)

  /** The objects stored for the result snapshot: none, or all given up again; held by an
      unfinished preparation; or owned by the published snapshot. */
  datatype Objects = NoObjects | OpenObjects | OwnedObjects

  /** What the sandbox holds at the beginning, and how many allocations of one operation the
      reconciler is prepared to list. */
  datatype Setup = Setup(start: Workspace, limit: nat)

  /** `listed` counts the operation's object allocations, in whatever state. */
  datatype Durable = Durable(
    limit: nat, op: Operation, app: Application, box: Sandbox, lease: Lease,
    rollback: Snapshot, result: Snapshot, objects: Objects, listed: nat)

  /** The two provider snapshots the coordinator takes, under deterministic names. */
  datatype Kind = RollbackKind | ResultKind

  // ---- What the lock holder is doing ----

  /** The coordinator, up to the first failure. */
  datatype RunPc =
    | Plan | AskRollback | AwaitRollback | LedgerRollback | StartSwap | Swap | EndSwap | Observe
    | AskResult | AwaitResult | LedgerResult | Prepare | Commit | DropRollback | Complete

  /** The coordinator's failure handling. */
  datatype CleanPc =
    | Caught | FailPlanned | BeginUndo | Undo | EndUndo | AbortPrepared | DropResult | DropRestored
    | SweepRollback | SweepResult | Fail

  datatype RecoverPc =
    | Inspect | Verify | TidyRollback | TidySweep | Finish
    | Resolve | ReBegin | ReUndo | ReEnd | ReFail | Validate | ReDropRollback | ReDropResult
    | ReSweepRollback | ReSweepResult | Abandon

  /** A provider snapshot as the coordinator remembers it. */
  datatype Held = NotHeld | Unledgered | Ledgered

  /** How preparing the snapshot went: not tried; thrown, with or without the error that
      says everything was given up again, and before or after the preparation's row was
      inserted; or prepared. */
  datatype Preparation = NotTried | Threw(aborted: bool, inserted: bool) | Prepared

  /** The coordinator's variables once something has failed. */
  datatype Vars = Vars(mutation: bool, rollback: Held, result: Held, preparation: Preparation, ambiguous: bool,
                       failed: bool, restored: bool)

  datatype Control =
    | Idle
    | Run(run: RunPc)
    | LateCaught | LateDrop | LateComplete
    | Clean(clean: CleanPc, vars: Vars)
    | Recover(recover: RecoverPc)

  /** `owner` is the generation under which the holder of the lock works. */
  datatype State = State(d: Durable, generation: nat, waiting: set<nat>, owner: nat, control: Control)

  datatype Step = Step(d: Durable, control: Control)

  /** How a transaction ends: seen as committed; committed with the reply lost; undone
      after or before its last statement. */
  datatype Tx = Committed | LostReply | AbortedLate | AbortedEarly

  predicate Lands(tx: Tx) {
    tx.Committed? || tx.LostReply?
  }

  /** How a provider call ends: with an answer; with its effect but no answer; without
      effect; or, for an upload still running, with some content written so far. */
  datatype Call = Answered | Unanswered | Refused | Partly(content: Workspace)

  /** How much there is to do: whether the plan changes anything, and how many objects a
      preparation lists before it ends. */
  datatype Load = Load(planned: bool, objects: nat)

  datatype Event =
    | Claim | Acquire(generation: nat) | Crash | Land(kind: Kind) | Drop(kind: Kind)
    | Touch(content: Workspace) | MoveLatest | CloseLease | Interact(quiet: bool)
    | Work(tx: Tx, call: Call, load: Load)

  /** The operation has just been inserted; its coordinator, generation 0, waits for the
      lock. */
  function Init(setup: Setup): State {
    State(Durable(setup.limit, InProgress, NoApplication, Sandbox(setup.start, setup.start, false),
                  Lease(SourceSnapshot, true, true), Snapshot(false, false, Unlisted),
                  Snapshot(false, false, Unlisted), NoObjects, 0),
          0, {0}, 0, Idle)
  }

  // ---- The application row behind the fence ----

  function Identity(): Rollback {
    Recorded(0, "rollback")
  }

  predicate At(d: Durable, phase: Phase) {
    d.app.Application? && d.app.row.phase == phase
  }

  /** The phase a repository call would set, or none when the row or the fence refuses. */
  function Moved(d: Durable, r: Result<Phase>): Durable {
    if d.app.Application? && r.Ok? then d.(app := Application(d.app.row.(phase := r.value))) else d
  }

  predicate Allows(d: Durable, owns: bool, r: Result<Phase>, tx: Tx) {
    owns && d.app.Application? && r.Ok? && Lands(tx)
  }

  function PhaseStep(d: Durable, owns: bool, r: Result<Phase>, tx: Tx, onSuccess: Control, onFailure: Control): Step {
    if !Allows(d, owns, r, tx) then Step(d, onFailure)
    else Step(Moved(d, r), if tx.Committed? then onSuccess else onFailure)
  }

  function PhaseOf(d: Durable): Phase {
    if d.app.Application? then d.app.row.phase else Failed
  }

  // ---- The provider ----

  function Settle(snapshot: Snapshot): Snapshot {
    if snapshot.requested then snapshot.(stored := true, requested := false) else snapshot
  }

  function Delete(snapshot: Snapshot, call: Call): Snapshot {
    if call.Answered? || call.Unanswered? then snapshot.(stored := false) else snapshot
  }

  /** Deleting a snapshot and then, when it is ledgered, marking it reclaimed behind the
      fence; the deletion itself is not fenced. */
  function Reclaim(snapshot: Snapshot, owns: bool, ledgered: bool, tx: Tx, call: Call): Snapshot {
    if call.Answered? && Lands(tx) && ledgered && owns && !snapshot.allocation.Unlisted?
    then snapshot.(stored := false, allocation := Reclaimed) else Delete(snapshot, call)
  }

  predicate ReclaimSeen(snapshot: Snapshot, owns: bool, ledgered: bool, tx: Tx, call: Call) {
    call.Answered? && tx.Committed? && (ledgered ==> owns && !snapshot.allocation.Unlisted?)
  }

  /** The deterministic-name cleanup leaves a snapshot that durable state names or that an
      unfinished operation still lists, and deletes any other. */
  predicate SweepNeeded(snapshot: Snapshot, named: bool, op: Operation) {
    && snapshot.stored && !named
    && !((snapshot.allocation.Allocated? || snapshot.allocation.Adopted?) && op.InProgress?)
  }

  function Sweep(snapshot: Snapshot, named: bool, op: Operation, owns: bool, call: Call): Snapshot {
    if SweepNeeded(snapshot, named, op) && owns then Delete(snapshot, call) else snapshot
  }

  predicate SweepSeen(snapshot: Snapshot, named: bool, op: Operation, owns: bool, call: Call) {
    call.Answered? && (SweepNeeded(snapshot, named, op) ==> owns)
  }

  /** Only the result snapshot can be named by a durable snapshot row, from its publication
      on. */
  predicate ResultNamed(d: Durable) {
    At(d, Checkpointed)
  }

  function Upload(d: Durable, archive: Workspace, call: Call): Durable {
    match call
    case Answered => d.(box := Sandbox(d.box.start, archive, false))
    case Partly(content) => d.(box := d.box.(now := content))
    case _ => d
  }

  function UploadStep(d: Durable, owns: bool, archive: Workspace, tx: Tx, call: Call,
                      same: Control, onSuccess: Control, onFailure: Control): Step {
    Step(Upload(d, archive, call),
         if call.Partly? then same
         else if call.Answered? && owns && tx.Committed? then onSuccess else onFailure)
  }

  // ---- The coordinator, until something fails ----

  /** Entering the failure handling with the variables as they are at the throw. */
  function Catch(rollback: Held, result: Held, preparation: Preparation, ambiguous: bool): Control {
    Clean(Caught, Vars(true, rollback, result, preparation, ambiguous, false, false))
  }

  function CatchEarly(): Control {
    Clean(Caught, Vars(false, NotHeld, NotHeld, NotTried, false, false, false))
  }

  function PlanStep(d: Durable, owns: bool, tx: Tx, load: Load): Step {
    if !owns || !Lands(tx) then Step(d, CatchEarly())
    else if load.planned && !(d.lease.open && d.lease.quiet) then Step(d, CatchEarly())
    else if load.planned then
      Step(d.(app := Application(Row(Planned, NoRollback))),
           if tx.Committed? then Run(AskRollback) else CatchEarly())
    else Step(d.(op := Succeeded(NotApplied)), if tx.Committed? then Idle else CatchEarly())
  }

  function Arrived(snapshot: Snapshot, call: Call): Snapshot {
    if call.Answered? || call.Unanswered? then Settle(snapshot) else snapshot
  }

  predicate ArrivalSeen(snapshot: Snapshot, owns: bool, tx: Tx, call: Call) {
    call.Answered? && Arrived(snapshot, call).stored && owns && tx.Committed?
  }

  function LedgerRollbackStep(d: Durable, owns: bool, tx: Tx): Step {
    if !owns || tx.AbortedEarly? || !d.app.Application? || !RecordRollback(d.app.row, Identity(), true).Ok?
    then Step(d, Catch(Unledgered, NotHeld, NotTried, false))
    else if tx.AbortedLate? then Step(d, Catch(Ledgered, NotHeld, NotTried, false))
    else Step(d.(rollback := d.rollback.(allocation := Allocated),
                 app := Application(RecordRollback(d.app.row, Identity(), true).value)),
              if tx.Committed? then Run(StartSwap) else Catch(Ledgered, NotHeld, NotTried, false))
  }

  function LedgerResultStep(d: Durable, owns: bool, tx: Tx): Step {
    if !owns || tx.AbortedEarly? then Step(d, Catch(Ledgered, Unledgered, NotTried, false))
    else if tx.AbortedLate? then Step(d, Catch(Ledgered, Ledgered, NotTried, false))
    else Step(d.(result := d.result.(allocation := Allocated)),
              if tx.Committed? then Run(Prepare) else Catch(Ledgered, Ledgered, NotTried, false))
  }

  /** Preparing inserts the preparation's row and lists and stores the objects.  When it
      fails after that it gives them up again, which leaves their allocations listed as
      reclaimed; but giving up can fail too, and then the objects stay. */
  function PrepareStep(d: Durable, owns: bool, call: Call, load: Load): Step {
    if !owns || call.Refused? then Step(d, Catch(Ledgered, Ledgered, Threw(false, false), false))
    else if call.Partly? then Step(d.(listed := load.objects), Catch(Ledgered, Ledgered, Threw(true, true), false))
    else Step(d.(objects := OpenObjects, listed := load.objects),
              if call.Answered? then Run(Commit) else Catch(Ledgered, Ledgered, Threw(false, true), false))
  }

  /** The final transaction: snapshot published, allocations adopted, row checkpointed. */
  function CommitStep(d: Durable, owns: bool, tx: Tx): Step {
    if !Allows(d, owns, MarkCheckpointed(PhaseOf(d), true), tx) || !d.result.allocation.Allocated?
       || !d.lease.open || d.lease.latest != SourceSnapshot
    then Step(d, LateCaught)
    else Step(Moved(d, MarkCheckpointed(PhaseOf(d), true))
                .(lease := d.lease.(latest := ResultSnapshot), result := d.result.(allocation := Adopted),
                  objects := OwnedObjects),
              if tx.Committed? then Run(DropRollback) else LateCaught)
  }

  function RunStep(d: Durable, owns: bool, pc: RunPc, tx: Tx, call: Call, load: Load): Step {
    match pc
    case Plan => PlanStep(d, owns, tx, load)
    case AskRollback => Step(d.(rollback := d.rollback.(requested := true)), Run(AwaitRollback))
    case AwaitRollback =>
      Step(d.(rollback := Arrived(d.rollback, call)),
           if ArrivalSeen(d.rollback, owns, tx, call) then Run(LedgerRollback)
           else Catch(NotHeld, NotHeld, NotTried, true))
    case LedgerRollback => LedgerRollbackStep(d, owns, tx)
    case StartSwap =>
      PhaseStep(d, owns, Transition(PhaseOf(d), RollbackReady, SwapStarted), tx,
                Run(Swap), Catch(Ledgered, NotHeld, NotTried, false))
    case Swap =>
      UploadStep(d, owns, Patched, tx, call, Run(Swap), Run(EndSwap), Catch(Ledgered, NotHeld, NotTried, false))
    case EndSwap =>
      PhaseStep(d, owns, Transition(PhaseOf(d), SwapStarted, Swapped), tx,
                Run(Observe), Catch(Ledgered, NotHeld, NotTried, false))
    case Observe =>
      Step(d, if call.Answered? && owns && tx.Committed? && d.box.now.Patched? then Run(AskResult)
              else Catch(Ledgered, NotHeld, NotTried, false))
    case AskResult => Step(d.(result := d.result.(requested := true)), Run(AwaitResult))
    case AwaitResult =>
      Step(d.(result := Arrived(d.result, call)),
           if ArrivalSeen(d.result, owns, tx, call) then Run(LedgerResult)
           else Catch(Ledgered, NotHeld, NotTried, true))
    case LedgerResult => LedgerResultStep(d, owns, tx)
    case Prepare => PrepareStep(d, owns, call, load)
    case Commit => CommitStep(d, owns, tx)
    case DropRollback =>
      Step(d.(rollback := Reclaim(d.rollback, owns, true, tx, call)),
           if ReclaimSeen(d.rollback, owns, true, tx, call) then Run(Complete) else LateCaught)
    case Complete =>
      if owns && Lands(tx)
      then Step(d.(op := Succeeded(Applied)), if tx.Committed? then Idle else LateCaught)
      else Step(d, LateCaught)
  }

  // ---- The coordinator's failure handling ----

  /** After the final transaction was started, the row decides. */
  function LateStep(d: Durable, owns: bool, call: Call): Control {
    if !call.Answered? then Idle
    else if At(d, Checkpointed) then
      if !owns then Idle else if d.rollback.allocation.Reclaimed? then LateComplete else LateDrop
    else Catch(Ledgered, Ledgered, Prepared, false)
  }

  function Goto(vars: Vars, ok: bool, pc: CleanPc): Control {
    Clean(pc, vars.(failed := vars.failed || !ok))
  }

  function CaughtStep(vars: Vars): Control {
    var v := vars.(restored := !vars.rollback.Ledgered?);
    Clean(if !vars.mutation then AbortPrepared
          else if vars.rollback.Ledgered? then BeginUndo else FailPlanned, v)
  }

  function CleanStep(d: Durable, owns: bool, pc: CleanPc, v: Vars, tx: Tx, call: Call): Step {
    match pc
    case Caught => Step(d, CaughtStep(v))
    case FailPlanned =>
      PhaseStep(d, owns, Transition(PhaseOf(d), Planned, Failed), tx,
                Goto(v, true, AbortPrepared), Goto(v, false, AbortPrepared))
    case BeginUndo =>
      PhaseStep(d, owns, BeginRollback(PhaseOf(d)), tx, Clean(Undo, v), Goto(v, false, AbortPrepared))
    case Undo =>
      UploadStep(d, owns, Source, tx, call, Clean(Undo, v), Clean(EndUndo, v), Goto(v, false, AbortPrepared))
    case EndUndo =>
      PhaseStep(d, owns, Transition(PhaseOf(d), RollbackStarted, RolledBack), tx,
                Clean(AbortPrepared, v.(restored := true)), Goto(v, false, AbortPrepared))
    case AbortPrepared =>
      // Only what was returned as prepared is aborted.
      if !v.preparation.Prepared? then Step(d, Clean(DropResult, v))
      else Step(if owns && call.Answered? then d.(objects := NoObjects) else d,
                Goto(v, owns && call.Answered?, DropResult))
    case DropResult =>
      if v.result.NotHeld? then Step(d, Clean(DropRestored, v))
      else Step(d.(result := Reclaim(d.result, owns, v.result.Ledgered?, tx, call)),
                Goto(v, ReclaimSeen(d.result, owns, v.result.Ledgered?, tx, call), DropRestored))
    case DropRestored =>
      if v.rollback.NotHeld? || !v.restored then Step(d, Clean(SweepRollback, v))
      else Step(d.(rollback := Reclaim(d.rollback, owns, v.rollback.Ledgered?, tx, call)),
                Goto(v, ReclaimSeen(d.rollback, owns, v.rollback.Ledgered?, tx, call), SweepRollback))
    case SweepRollback =>
      Step(d.(rollback := Sweep(d.rollback, false, d.op, owns, call)),
           Goto(v, SweepSeen(d.rollback, false, d.op, owns, call), SweepResult))
    case SweepResult =>
      Step(d.(result := Sweep(d.result, ResultNamed(d), d.op, owns, call)),
           Goto(v, SweepSeen(d.result, ResultNamed(d), d.op, owns, call), Fail))
    case Fail =>
      Step(if !v.failed && !v.ambiguous && owns && Lands(tx) then d.(op := FailedTerminal) else d, Idle)
  }

  // ---- The reconciler ----

  function ListedAs(snapshot: Snapshot): nat {
    if snapshot.allocation.Unlisted? then 0 else 1
  }

  /** The rows of the operation's ledger; a reclaimed allocation keeps its row. */
  function Rows(d: Durable): nat {
    ListedAs(d.rollback) + ListedAs(d.result) + d.listed
  }

  /** Listing the ledger throws when it has more rows than the limit. */
  predicate Listable(d: Durable) {
    Rows(d) <= d.limit
  }

  /** The object reclaimer is called with the same limit and refuses it outside its own
      range. */
  const MAX_RECLAIM_BATCH := 1000

  predicate Reclaimable(d: Durable) {
    d.objects.OpenObjects? ==> 1 <= d.limit <= MAX_RECLAIM_BATCH
  }

  /** The allocation shapes the reconciler accepts. */
  predicate ValidAllocations(d: Durable) {
    && d.app.Application?
    && (if d.app.row.rollback.NoRollback?
        then d.rollback.allocation.Unlisted? && (At(d, Planned) || At(d, Failed))
        else !d.rollback.allocation.Unlisted?)
    && (At(d, Checkpointed) ==> !d.result.allocation.Unlisted?)
  }

  /** Nothing listed is left to reclaim. */
  predicate Drained(snapshot: Snapshot) {
    snapshot.allocation.Unlisted? || snapshot.allocation.Reclaimed?
  }

  /** One allocation's cleanup; it refuses what durable state names or has adopted. */
  function Dropped(snapshot: Snapshot, named: bool, owns: bool, tx: Tx, call: Call): Snapshot {
    if snapshot.allocation.Allocated? && owns && !named then Reclaim(snapshot, owns, true, tx, call) else snapshot
  }

  function DropNext(snapshot: Snapshot, named: bool, owns: bool, tx: Tx, call: Call, next: RecoverPc): Control {
    if Drained(snapshot) then Recover(next)
    else if snapshot.allocation.Allocated? && owns && !named && ReclaimSeen(snapshot, owns, true, tx, call)
    then Recover(next) else Idle
  }

  function SweepNext(snapshot: Snapshot, named: bool, op: Operation, owns: bool, call: Call,
                     next: RecoverPc): Control {
    if SweepSeen(snapshot, named, op, owns, call) then Recover(next) else Idle
  }

  /** The recovery of a committed checkpoint insists that the lease still has it. */
  predicate PublishedOn(lease: Lease) {
    lease.open && lease.latest == ResultSnapshot
  }

  /** Rolling back insists that the lease still has what the plan started from. */
  predicate RestorableOn(lease: Lease) {
    lease.open && lease.latest == SourceSnapshot
  }

  function InspectStep(d: Durable): Control {
    if d.app.NoApplication? then
      if Rows(d) == 0 then Recover(ReSweepRollback) else Idle
    else match d.app.row.phase
      case Checkpointed => Recover(Verify)
      case Planned => Recover(ReFail)
      case RolledBack => Recover(Validate)
      case Failed => Recover(Validate)
      case _ => Recover(Resolve)
  }

  function RecoverStep(d: Durable, owns: bool, pc: RecoverPc, tx: Tx, call: Call): Step {
    match pc
    case Inspect => Step(d, if owns && call.Answered? then InspectStep(d) else Idle)
    case Verify =>
      Step(d, if owns && tx.Committed? && PublishedOn(d.lease) && Listable(d) && ValidAllocations(d)
              then Recover(TidyRollback) else Idle)
    case TidyRollback =>
      Step(d.(rollback := Dropped(d.rollback, false, owns, tx, call)),
           DropNext(d.rollback, false, owns, tx, call, TidySweep))
    case TidySweep =>
      Step(d.(rollback := Sweep(d.rollback, false, d.op, owns, call)),
           SweepNext(d.rollback, false, d.op, owns, call, Finish))
    case Finish =>
      Step(if Listable(d) && ValidAllocations(d) && d.rollback.allocation.Reclaimed?
              && d.result.allocation.Adopted? && d.objects.OwnedObjects? && owns && Lands(tx)
           then d.(op := Succeeded(Applied)) else d, Idle)
    case Resolve =>
      Step(d, if owns && call.Answered? && tx.Committed? && RestorableOn(d.lease) && d.lease.quiet
              then Recover(ReBegin) else Idle)
    case ReBegin => PhaseStep(d, owns, BeginRollback(PhaseOf(d)), tx, Recover(ReUndo), Idle)
    case ReUndo => UploadStep(d, owns, Source, tx, call, Recover(ReUndo), Recover(ReEnd), Idle)
    case ReEnd =>
      PhaseStep(d, owns, Transition(PhaseOf(d), RollbackStarted, RolledBack), tx, Recover(Validate), Idle)
    case ReFail => PhaseStep(d, owns, Transition(PhaseOf(d), Planned, Failed), tx, Recover(Validate), Idle)
    case Validate =>
      // The preparation, if there is one, is aborted and its objects reclaimed first.
      var ok := owns && call.Answered? && Listable(d) && Reclaimable(d);
      Step(if ok && d.objects.OpenObjects? then d.(objects := NoObjects) else d,
           if ok && ValidAllocations(d) && (At(d, RolledBack) || At(d, Failed))
           then Recover(ReDropRollback) else Idle)
    case ReDropRollback =>
      Step(d.(rollback := Dropped(d.rollback, false, owns, tx, call)),
           DropNext(d.rollback, false, owns, tx, call, ReDropResult))
    case ReDropResult =>
      Step(d.(result := Dropped(d.result, ResultNamed(d), owns, tx, call)),
           DropNext(d.result, ResultNamed(d), owns, tx, call, ReSweepRollback))
    case ReSweepRollback =>
      Step(d.(rollback := Sweep(d.rollback, false, d.op, owns, call)),
           SweepNext(d.rollback, false, d.op, owns, call, ReSweepResult))
    case ReSweepResult =>
      Step(d.(result := Sweep(d.result, ResultNamed(d), d.op, owns, call)),
           SweepNext(d.result, ResultNamed(d), d.op, owns, call, Abandon))
    case Abandon =>
      Step(if Listable(d) && Drained(d.rollback) && Drained(d.result) && d.objects.NoObjects? && owns && Lands(tx)
           then d.(op := FailedTerminal) else d, Idle)
  }

  // ---- Events ----

  function WorkStep(d: Durable, owns: bool, control: Control, tx: Tx, call: Call, load: Load): Step {
    match control
    case Idle => Step(d, Idle)
    case Run(pc) => RunStep(d, owns, pc, tx, call, load)
    case LateCaught => Step(d, LateStep(d, owns, call))
    case LateDrop =>
      Step(d.(rollback := Reclaim(d.rollback, owns, true, tx, call)),
           if ReclaimSeen(d.rollback, owns, true, tx, call) then LateComplete else Idle)
    case LateComplete => Step(if owns && Lands(tx) then d.(op := Succeeded(Applied)) else d, Idle)
    case Clean(pc, vars) => CleanStep(d, owns, pc, vars, tx, call)
    case Recover(pc) => RecoverStep(d, owns, pc, tx, call)
  }

  /** The fence: a journal update succeeds only for the current generation of an operation
      in progress. */
  predicate Owns(s: State) {
    s.d.op.InProgress? && s.generation == s.owner
  }

  /** Anything else that changes the sandbox.  Until an application is planned that only
      changes what it will start from. */
  function Touched(d: Durable, content: Workspace): Durable {
    if d.app.NoApplication? then d.(box := Sandbox(content, content, false))
    else d.(box := Sandbox(d.box.start, content, true))
  }

  /** Another operation's checkpoint.  Until an application is planned that only changes which
      snapshot it will start from. */
  function Overtaken(d: Durable): Durable {
    if d.app.NoApplication? || !d.lease.open then d else d.(lease := d.lease.(latest := ForeignSnapshot))
  }

  /** An unsettled snapshot request settles, by landing or by being dropped, before the
      next worker obtains the lock; what others do, they do while the lock is free. */
  function Next(s: State, e: Event): State {
    match e
    case Claim =>
      if s.d.op.InProgress?
      then s.(generation := s.generation + 1, waiting := s.waiting + {s.generation + 1}) else s
    case Acquire(g) =>
      if s.control.Idle? && g in s.waiting && !s.d.rollback.requested && !s.d.result.requested
      then s.(waiting := s.waiting - {g}, owner := g,
              control := if g == 0 then Run(Plan) else Recover(Inspect))
      else s
    case Crash => s.(control := Idle)
    case Land(RollbackKind) => s.(d := s.d.(rollback := Settle(s.d.rollback)))
    case Land(ResultKind) => s.(d := s.d.(result := Settle(s.d.result)))
    case Drop(RollbackKind) => s.(d := s.d.(rollback := s.d.rollback.(requested := false)))
    case Drop(ResultKind) => s.(d := s.d.(result := s.d.result.(requested := false)))
    case Touch(content) => if s.control.Idle? then s.(d := Touched(s.d, content)) else s
    case MoveLatest => if s.control.Idle? then s.(d := Overtaken(s.d)) else s
    case CloseLease => if s.control.Idle? then s.(d := s.d.(lease := s.d.lease.(open := false))) else s
    case Interact(quiet) => if s.control.Idle? then s.(d := s.d.(lease := s.d.lease.(quiet := quiet))) else s
    case Work(tx, call, load) =>
      var step := WorkStep(s.d, Owns(s), s.control, tx, call, load);
      s.(d := step.d, control := step.control)
  }

  function After(s: State, events: seq<Event>): State {
    if events == [] then s
    else Next(After(s, events[..|events| - 1]), events[|events| - 1])
  }
}
