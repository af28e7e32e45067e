/** How the coordinator of a patch application ends when it is left alone: from every state it
    can be in, and after any one fault on its way. */
module PatchApplyCompletion {
  import opened PatchApplicationRow
  import opened PatchApplyProtocol
  import opened PatchApplySafety
  import opened PatchApplyOutcome

  // ---- Steps in which nothing goes wrong ----

  function Smoothly(load: Load): Event {
    Work(Committed, Answered, load)
  }

  function Smooth(s: State, load: Load, n: nat): State
    decreases n
  {
    if n == 0 then s else Smooth(Next(s, Smoothly(load)), load, n - 1)
  }

  lemma SmoothBy(s: State, load: Load, n: nat)
    requires n > 0
    ensures Smooth(s, load, n) == Smooth(Next(s, Smoothly(load)), load, n - 1)
  {
  }

  lemma {:induction false} SmoothEnded(s: State, load: Load, n: nat)
    requires s.control == Idle
    ensures Smooth(s, load, n) == s
  {
    if n > 0 {
      assert Next(s, Smoothly(load)) == s;
      SmoothEnded(s, load, n - 1);
    }
  }

  // ---- What the lock keeps away from the coordinator ----

  /** Nothing else changes the sandbox or the lease while the coordinator applies. */
  predicate Shielded(s: State) {
    s.control.Run? ==>
      && !s.d.box.touched
      && (s.control.run != Plan ==> s.d.lease.open && (At(s.d, Checkpointed) || s.d.lease.latest == SourceSnapshot))
  }

  lemma RunShields(d: Durable, owns: bool, pc: RunPc, tx: Tx, call: Call, load: Load)
    requires RunKnows(d, pc) && Facts(d) && !d.box.touched
    requires pc != Plan ==> d.lease.open && (At(d, Checkpointed) || d.lease.latest == SourceSnapshot)
    ensures var step := RunStep(d, owns, pc, tx, call, load);
      step.control.Run? ==>
        && !step.d.box.touched && step.control.run != Plan && step.d.lease.open
        && (At(step.d, Checkpointed) || step.d.lease.latest == SourceSnapshot)
  {
  }

  lemma CleanDoesNotApply(d: Durable, owns: bool, pc: CleanPc, v: Vars, tx: Tx, call: Call)
    ensures !CleanStep(d, owns, pc, v, tx, call).control.Run?
  {
  }

  lemma RecoveryDoesNotApply(d: Durable, owns: bool, pc: RecoverPc, tx: Tx, call: Call)
    ensures !RecoverStep(d, owns, pc, tx, call).control.Run?
  {
  }

  /** No other part of the worker turns into the applying coordinator. */
  lemma OthersDoNotApply(d: Durable, owns: bool, control: Control, tx: Tx, call: Call, load: Load)
    requires !control.Run?
    ensures !WorkStep(d, owns, control, tx, call, load).control.Run?
  {
    if control.Clean? {
      CleanDoesNotApply(d, owns, control.clean, control.vars, tx, call);
    } else if control.Recover? {
      RecoveryDoesNotApply(d, owns, control.recover, tx, call);
    }
  }

  lemma WorkShields(s: State, tx: Tx, call: Call, load: Load)
    requires Inv(s) && Shielded(s)
    ensures Shielded(Next(s, Work(tx, call, load)))
  {
    if s.control.Run? {
      RunShields(s.d, Owns(s), s.control.run, tx, call, load);
    } else {
      OthersDoNotApply(s.d, Owns(s), s.control, tx, call, load);
    }
  }

  lemma NextShields(s: State, e: Event)
    requires Inv(s) && Shielded(s)
    ensures Shielded(Next(s, e))
  {
    if e.Work? {
      WorkShields(s, e.tx, e.call, e.load);
    }
  }

  lemma {:induction false} ReachableShielded(setup: Setup, events: seq<Event>)
    ensures Inv(After(Init(setup), events)) && Shielded(After(Init(setup), events))
  {
    Reachable(setup, events);
    if events != [] {
      var before := events[..|events| - 1];
      ReachableShielded(setup, before);
      NextShields(After(Init(setup), before), events[|events| - 1]);
    }
  }

  // ---- The coordinator that has met no failure ----

  predicate Arriving(snapshot: Snapshot) {
    snapshot.requested || snapshot.stored
  }

  /** A step that will succeed: the lease admits the plan, and a snapshot that is waited for
      was not dropped by the provider. */
  predicate Promising(d: Durable, pc: RunPc) {
    && (pc.Plan? ==> d.lease.open && d.lease.quiet)
    && (pc.AwaitRollback? ==> Arriving(d.rollback))
    && (pc.AwaitResult? ==> Arriving(d.result))
  }

  predicate OnCourse(s: State, pc: RunPc) {
    Inv(s) && Shielded(s) && Owns(s) && s.control == Run(pc) && Promising(s.d, pc)
  }

  function Later(pc: RunPc): RunPc {
    match pc
    case Plan => AskRollback case AskRollback => AwaitRollback case AwaitRollback => LedgerRollback
    case LedgerRollback => StartSwap case StartSwap => Swap case Swap => EndSwap case EndSwap => Observe
    case Observe => AskResult case AskResult => AwaitResult case AwaitResult => LedgerResult
    case LedgerResult => Prepare case Prepare => Commit case Commit => DropRollback case _ => Complete
  }

  function ToGo(pc: RunPc): nat {
    match pc
    case Plan => 15 case AskRollback => 14 case AwaitRollback => 13 case LedgerRollback => 12
    case StartSwap => 11 case Swap => 10 case EndSwap => 9 case Observe => 8
    case AskResult => 7 case AwaitResult => 6 case LedgerResult => 5 case Prepare => 4
    case Commit => 3 case DropRollback => 2 case Complete => 1
  }

  lemma FirstHalfGoesOn(d: Durable, pc: RunPc, load: Load)
    requires Facts(d) && RunKnows(d, pc) && Promising(d, pc) && d.op.InProgress? && load.planned
    requires ToGo(pc) >= 10
    ensures var step := RunStep(d, true, pc, Committed, Answered, load);
      step.control == Run(Later(pc)) && step.d.op.InProgress? && Promising(step.d, Later(pc))
  {
  }

  lemma SecondHalfGoesOn(d: Durable, pc: RunPc, load: Load)
    requires Facts(d) && RunKnows(d, pc) && Promising(d, pc) && d.op.InProgress? && load.planned
    requires 1 < ToGo(pc) < 10
    requires !d.box.touched && d.lease.open && (At(d, Checkpointed) || d.lease.latest == SourceSnapshot)
    ensures var step := RunStep(d, true, pc, Committed, Answered, load);
      step.control == Run(Later(pc)) && step.d.op.InProgress? && Promising(step.d, Later(pc))
  {
  }

  lemma StaysKept(s: State, load: Load)
    requires Inv(s) && Shielded(s)
    ensures Inv(Next(s, Smoothly(load))) && Shielded(Next(s, Smoothly(load)))
  {
    NextKeeps(s, Smoothly(load));
    NextShields(s, Smoothly(load));
  }

  lemma GetsFurther(s: State, pc: RunPc, load: Load)
    requires OnCourse(s, pc) && pc != Complete && load.planned
    ensures var t := Next(s, Smoothly(load));
      Owns(t) && t.control == Run(Later(pc)) && Promising(t.d, Later(pc)) && ToGo(Later(pc)) == ToGo(pc) - 1
  {
    if ToGo(pc) >= 10 {
      FirstHalfGoesOn(s.d, pc, load);
    } else {
      SecondHalfGoesOn(s.d, pc, load);
    }
  }

  lemma GoesOn(s: State, pc: RunPc, load: Load, n: nat) returns (t: State, next: RunPc)
    requires OnCourse(s, pc) && pc != Complete && load.planned && n > 0
    ensures OnCourse(t, next) && ToGo(next) == ToGo(pc) - 1 && Smooth(s, load, n) == Smooth(t, load, n - 1)
  {
    StaysKept(s, load);
    GetsFurther(s, pc, load);
    SmoothBy(s, load, n);
    t, next := Next(s, Smoothly(load)), Later(pc);
  }

  /** The application is recorded, published and tidied up, and the lock is free. */
  predicate Done(s: State) {
    && s.control == Idle && s.d.op == Succeeded(Applied) && At(s.d, Checkpointed)
    && s.d.box.now == Patched && s.d.lease.latest == ResultSnapshot
    && s.d.rollback == Snapshot(false, false, Reclaimed) && s.d.result == Snapshot(true, false, Adopted)
    && s.d.objects == OwnedObjects
  }

  lemma CompletesNow(s: State, load: Load, n: nat) returns (last: State)
    requires OnCourse(s, Complete) && n > 0
    ensures last == Smooth(s, load, n) && Done(last)
  {
    last := Next(s, Smoothly(load));
    SmoothEnded(last, load, n - 1);
  }

  lemma {:induction false} RunCompletes(s: State, pc: RunPc, load: Load, n: nat) returns (last: State)
    requires OnCourse(s, pc) && load.planned && n >= ToGo(pc)
    ensures last == Smooth(s, load, n) && Done(last)
    decreases ToGo(pc)
  {
    if pc == Complete {
      last := CompletesNow(s, load, n);
    } else {
      var t, next := GoesOn(s, pc, load, n);
      last := RunCompletes(t, next, load, n - 1);
    }
  }

  // ---- The coordinator that handles a failure ----

  /** Before the snapshot's cleanup, what the coordinator takes for ledgered is ledgered. */
  predicate Believed(d: Durable, pc: CleanPc, v: Vars) {
    && (!pc.SweepRollback? && !pc.SweepResult? && !pc.Fail? && v.rollback.Ledgered? ==>
          !d.rollback.allocation.Unlisted?)
    && (!pc.DropRestored? && !pc.SweepRollback? && !pc.SweepResult? && !pc.Fail? && v.result.Ledgered? ==>
          !d.result.allocation.Unlisted?)
  }

  predicate Regular(d: Durable, pc: CleanPc, v: Vars) {
    !v.failed && !v.ambiguous && Believed(d, pc, v)
  }

  function LaterClean(d: Durable, pc: CleanPc, v: Vars): CleanPc {
    match pc
    case Caught => if !v.mutation then AbortPrepared else if v.rollback.Ledgered? then BeginUndo else FailPlanned
    case FailPlanned => AbortPrepared
    case BeginUndo => if BeginRollback(PhaseOf(d)).Ok? then Undo else AbortPrepared
    case Undo => EndUndo case EndUndo => AbortPrepared
    case AbortPrepared => DropResult case DropResult => DropRestored case DropRestored => SweepRollback
    case SweepRollback => SweepResult case _ => Fail
  }

  function ToClean(pc: CleanPc): nat {
    match pc
    case Caught => 10 case BeginUndo => 9 case Undo => 8 case FailPlanned => 7 case EndUndo => 7
    case AbortPrepared => 6 case DropResult => 5 case DropRestored => 4
    case SweepRollback => 3 case SweepResult => 2 case Fail => 1
  }

  predicate CleaningUp(s: State, pc: CleanPc, v: Vars) {
    Inv(s) && Owns(s) && s.control == Clean(pc, v)
  }

  lemma UndoGoesOn(d: Durable, pc: CleanPc, v: Vars)
    requires Facts(d) && CleanKnows(d, pc, v) && d.op.InProgress? && ToClean(pc) > 6
    ensures var step := CleanStep(d, true, pc, v, Committed, Answered);
      && step.d.op.InProgress? && step.control.Clean? && step.control.clean == LaterClean(d, pc, v)
      && (Regular(step.d, LaterClean(d, pc, v), step.control.vars) <==> Regular(d, pc, v))
  {
  }

  lemma DropGoesOn(d: Durable, pc: CleanPc, v: Vars)
    requires Facts(d) && CleanKnows(d, pc, v) && d.op.InProgress? && 1 < ToClean(pc) <= 6
    ensures var step := CleanStep(d, true, pc, v, Committed, Answered);
      && step.d.op.InProgress? && step.control.Clean? && step.control.clean == LaterClean(d, pc, v)
      && (Regular(step.d, LaterClean(d, pc, v), step.control.vars) <==> Regular(d, pc, v))
  {
  }

  lemma CleanGoesOn(s: State, pc: CleanPc, v: Vars, load: Load, n: nat) returns (t: State, next: CleanPc, w: Vars)
    requires CleaningUp(s, pc, v) && pc != Fail && n > 0
    ensures CleaningUp(t, next, w) && ToClean(next) < ToClean(pc)
    ensures Regular(t.d, next, w) <==> Regular(s.d, pc, v)
    ensures Smooth(s, load, n) == Smooth(t, load, n - 1)
  {
    t, next, w := CleansFurther(s, pc, v, load);
    NextKeeps(s, Smoothly(load));
    SmoothBy(s, load, n);
  }

  lemma CleansFurther(s: State, pc: CleanPc, v: Vars, load: Load) returns (t: State, next: CleanPc, w: Vars)
    requires CleaningUp(s, pc, v) && pc != Fail
    ensures t == Next(s, Smoothly(load)) && Owns(t) && t.control == Clean(next, w) && ToClean(next) < ToClean(pc)
    ensures Regular(t.d, next, w) <==> Regular(s.d, pc, v)
  {
    if ToClean(pc) > 6 {
      UndoGoesOn(s.d, pc, v);
    } else {
      DropGoesOn(s.d, pc, v);
    }
    t := Next(s, Smoothly(load));
    next, w := t.control.clean, t.control.vars;
  }

  lemma FailEnds(s: State, v: Vars, load: Load, n: nat) returns (last: State)
    requires CleaningUp(s, Fail, v) && n > 0
    ensures last == Smooth(s, load, n) && last.control == Idle
    ensures last.d.op == if Regular(s.d, Fail, v) then FailedTerminal else InProgress
  {
    last := Next(s, Smoothly(load));
    SmoothEnded(last, load, n - 1);
  }

  lemma {:induction false} CleanEnds(s: State, pc: CleanPc, v: Vars, load: Load, n: nat) returns (last: State)
    requires CleaningUp(s, pc, v) && n >= ToClean(pc)
    ensures last == Smooth(s, load, n) && last.control == Idle
    ensures last.d.op == if Regular(s.d, pc, v) then FailedTerminal else InProgress
    decreases ToClean(pc)
  {
    if pc == Fail {
      last := FailEnds(s, v, load, n);
    } else {
      var t, next, w := CleanGoesOn(s, pc, v, load, n);
      last := CleanEnds(t, next, w, load, n - 1);
    }
  }

  // ---- From every state of the coordinator ----

  predicate Late(control: Control) {
    control.LateCaught? || control.LateDrop? || control.LateComplete?
  }

  /** How the operation will be recorded, as the present state tells. */
  function Prospect(s: State): Operation {
    match s.control
    case Run(Plan) => if s.d.lease.open && s.d.lease.quiet then Succeeded(Applied) else FailedTerminal
    case Run(pc) => if Promising(s.d, pc) then Succeeded(Applied) else InProgress
    case Clean(pc, v) => if Regular(s.d, pc, v) then FailedTerminal else InProgress
    case _ => if At(s.d, Checkpointed) then Succeeded(Applied) else FailedTerminal
  }

  lemma LateDropEnds(s: State, load: Load, n: nat)
    requires Inv(s) && Owns(s) && (s.control.LateDrop? || s.control.LateComplete?) && n >= 2
    ensures var t := Smooth(s, load, n); t.control == Idle && t.d.op == Succeeded(Applied)
  {
    var t := Next(s, Smoothly(load));
    SmoothBy(s, load, n);
    if s.control.LateDrop? {
      SmoothBy(t, load, n - 1);
      SmoothEnded(Next(t, Smoothly(load)), load, n - 2);
    } else {
      SmoothEnded(t, load, n - 1);
    }
  }

  lemma LateEnds(s: State, load: Load, n: nat)
    requires Inv(s) && Owns(s) && Late(s.control) && n >= 11
    ensures var t := Smooth(s, load, n); t.control == Idle && t.d.op == Prospect(s)
  {
    if s.control.LateCaught? {
      var t := Next(s, Smoothly(load));
      SmoothBy(s, load, n);
      NextKeeps(s, Smoothly(load));
      if At(s.d, Checkpointed) {
        LateDropEnds(t, load, n - 1);
      } else {
        var last := CleanEnds(t, t.control.clean, t.control.vars, load, n - 1);
      }
    } else {
      LateDropEnds(s, load, n);
    }
  }

  /** A plan that the lease does not admit, and a snapshot that never came. */
  lemma HopelessStep(s: State, pc: RunPc, load: Load, n: nat) returns (t: State, v: Vars)
    requires Inv(s) && Owns(s) && s.control == Run(pc) && !Promising(s.d, pc) && load.planned && n > 0
    ensures CleaningUp(t, Caught, v) && Smooth(s, load, n) == Smooth(t, load, n - 1)
    ensures Regular(t.d, Caught, v) <==> pc == Plan
  {
    t := Next(s, Smoothly(load));
    v := t.control.vars;
    NextKeeps(s, Smoothly(load));
  }

  lemma HopelessEnds(s: State, pc: RunPc, load: Load, n: nat) returns (last: State)
    requires Inv(s) && Owns(s) && s.control == Run(pc) && !Promising(s.d, pc) && load.planned && n >= 11
    ensures last == Smooth(s, load, n) && last.control == Idle
    ensures last.d.op == if pc == Plan then FailedTerminal else InProgress
  {
    var t, v := HopelessStep(s, pc, load, n);
    last := CleanEnds(t, Caught, v, load, n - 1);
  }

  lemma EndsAsExpected(s: State, load: Load)
    requires Inv(s) && Shielded(s) && Owns(s) && load.planned
    requires s.control.Run? || s.control.Clean? || Late(s.control)
    ensures var t := Smooth(s, load, 15); t.control == Idle && t.d.op == Prospect(s)
    ensures s.control.Run? && Prospect(s) == Succeeded(Applied) ==> Done(Smooth(s, load, 15))
  {
    if s.control.Clean? {
      var last := CleanEnds(s, s.control.clean, s.control.vars, load, 15);
    } else if Late(s.control) {
      LateEnds(s, load, 15);
    } else if Promising(s.d, s.control.run) {
      var last := RunCompletes(s, s.control.run, load, 15);
    } else {
      var last := HopelessEnds(s, s.control.run, load, 15);
    }
  }

  /** From every reachable state in which the coordinator works and owns the operation,
      fifteen steps without a disturbance free the lock and record what the state tells:
      an application still on its way as applied, unless the provider dropped a snapshot it
      waits for; a handled failure as failed, unless a part of the handling failed or it
      cannot know what the provider or the ledger did. */
  lemma CoordinatorEnds(setup: Setup, events: seq<Event>, load: Load)
    requires var s := After(Init(setup), events);
      Owns(s) && load.planned && (s.control.Run? || s.control.Clean? || Late(s.control))
    ensures var s := After(Init(setup), events); var t := Smooth(s, load, 15);
      && t.control == Idle && t.d.op == Prospect(s)
      && (s.control.Run? && Prospect(s) == Succeeded(Applied) ==> Done(t))
  {
    ReachableShielded(setup, events);
    EndsAsExpected(After(Init(setup), events), load);
  }

  /** In particular, for every sandbox and every limit, an undisturbed application of a plan
      that changes something is recorded as applied. */
  lemma UndisturbedIsApplied(setup: Setup, load: Load)
    requires load.planned
    ensures Done(Smooth(Next(Init(setup), Acquire(0)), load, 15))
  {
    var s := Next(Init(setup), Acquire(0));
    assert After(Init(setup), []) == Init(setup);
    var events := Continue(Init(setup), [], Init(setup), Acquire(0));
    CoordinatorEnds(setup, events, load);
  }

  // ---- One fault ----

  /** How an application ends in which one step, at `pc`, goes any way it can. */
  function AfterFault(pc: RunPc, tx: Tx, call: Call): Operation {
    match pc
    case Plan => if tx.Committed? then Succeeded(Applied) else FailedTerminal
    case AskRollback => Succeeded(Applied)
    case AwaitRollback => if call.Answered? && tx.Committed? then Succeeded(Applied) else InProgress
    case LedgerRollback =>
      if tx.Committed? then Succeeded(Applied) else if tx.AbortedLate? then InProgress else FailedTerminal
    case StartSwap => if tx.Committed? then Succeeded(Applied) else FailedTerminal
    case Swap => if call.Partly? || (call.Answered? && tx.Committed?) then Succeeded(Applied) else FailedTerminal
    case EndSwap => if tx.Committed? then Succeeded(Applied) else FailedTerminal
    case Observe => if call.Answered? && tx.Committed? then Succeeded(Applied) else FailedTerminal
    case AskResult => Succeeded(Applied)
    case AwaitResult => if call.Answered? && tx.Committed? then Succeeded(Applied) else InProgress
    case LedgerResult =>
      if tx.Committed? then Succeeded(Applied) else if tx.AbortedLate? then InProgress else FailedTerminal
    case Prepare => if call.Answered? then Succeeded(Applied) else FailedTerminal
    case Commit => if Lands(tx) then Succeeded(Applied) else FailedTerminal
    case DropRollback => Succeeded(Applied)
    case Complete => Succeeded(Applied)
  }

  /** What a fault on course leads to, before the coordinator deals with it. */
  predicate Leads(s: State, outcome: Operation) {
    || (Owns(s) && (s.control.Run? || s.control.Clean? || Late(s.control)) && Prospect(s) == outcome)
    || (!s.d.op.InProgress? && s.d.op == outcome)
  }

  lemma EarlyFault(s: State, pc: RunPc, tx: Tx, call: Call, load: Load)
    requires OnCourse(s, pc) && load.planned && ToGo(pc) >= 11
    ensures Leads(Next(s, Work(tx, call, load)), AfterFault(pc, tx, call))
  {
  }

  lemma MiddleFault(s: State, pc: RunPc, tx: Tx, call: Call, load: Load)
    requires OnCourse(s, pc) && load.planned && 5 < ToGo(pc) < 11
    ensures Leads(Next(s, Work(tx, call, load)), AfterFault(pc, tx, call))
  {
  }

  lemma LateFault(s: State, pc: RunPc, tx: Tx, call: Call, load: Load)
    requires OnCourse(s, pc) && load.planned && ToGo(pc) <= 5
    ensures Leads(Next(s, Work(tx, call, load)), AfterFault(pc, tx, call))
  {
  }

  /** A finished operation stays as it is recorded. */
  lemma {:induction false} RecordedStays(s: State, load: Load, n: nat)
    requires Inv(s) && !s.d.op.InProgress?
    ensures Smooth(s, load, n).d.op == s.d.op
    decreases n
  {
    if n > 0 {
      NextKeeps(s, Smoothly(load));
      NextMoves(s, Smoothly(load));
      RecordedStays(Next(s, Smoothly(load)), load, n - 1);
    }
  }

  /** From every reachable state of an application on its way, one step that goes any way it
      can, followed by steps without a disturbance, is recorded as `AfterFault` says: an
      upload that was cut short is repeated, a lost reply of the final transaction is found
      out, what follows the final transaction cannot undo it; a snapshot request without an
      answer, or a ledger transaction undone at its last statement, leaves the operation to
      a reconciler; everything else is undone and recorded as failed. */
  lemma OneFault(setup: Setup, events: seq<Event>, pc: RunPc, tx: Tx, call: Call, load: Load)
    requires var s := After(Init(setup), events);
      Owns(s) && s.control == Run(pc) && Promising(s.d, pc) && load.planned
    ensures Smooth(Next(After(Init(setup), events), Work(tx, call, load)), load, 15).d.op == AfterFault(pc, tx, call)
  {
    var s := After(Init(setup), events);
    ReachableShielded(setup, events);
    var e := Work(tx, call, load);
    NextKeeps(s, e);
    NextShields(s, e);
    if ToGo(pc) >= 11 {
      EarlyFault(s, pc, tx, call, load);
    } else if ToGo(pc) > 5 {
      MiddleFault(s, pc, tx, call, load);
    } else {
      LateFault(s, pc, tx, call, load);
    }
    if Next(s, e).d.op.InProgress? {
      EndsAsExpected(Next(s, e), load);
    } else {
      RecordedStays(Next(s, e), load, 15);
    }
  }

  // ---- A plan that changes nothing ----

  /** A conflict or a rejection is answered at once: there is no application, nothing was
      touched and nothing stored. */
  lemma NothingToApply(setup: Setup, events: seq<Event>, load: Load)
    requires var s := After(Init(setup), events); Owns(s) && s.control == Run(Plan) && !load.planned
    ensures var s := After(Init(setup), events); var t := Next(s, Smoothly(load));
      && t.control == Idle && t.d.op == Succeeded(NotApplied) && t.d.app.NoApplication?
      && t.d.box == s.d.box && t.d.lease == s.d.lease && t.d.objects == NoObjects && t.d.listed == 0
      && t.d.rollback == t.d.result == Snapshot(false, false, Unlisted)
  {
    Reachable(setup, events);
  }

  // ---- A fault while a failure is handled ----

  /** Whether the step counts as done, for a coordinator in the middle of cleaning up. */
  predicate Seen(pc: CleanPc, v: Vars, tx: Tx, call: Call) {
    match pc
    case Caught => true
    case FailPlanned => tx.Committed?
    case BeginUndo => tx.Committed?
    case Undo => call.Partly? || (call.Answered? && tx.Committed?)
    case EndUndo => tx.Committed?
    case AbortPrepared => v.preparation.Prepared? ==> call.Answered?
    case DropResult => !v.result.NotHeld? ==> call.Answered? && tx.Committed?
    case DropRestored => !v.rollback.NotHeld? ==> call.Answered? && tx.Committed?
    case SweepRollback => call.Answered?
    case SweepResult => call.Answered?
    case Fail => Lands(tx)
  }

  lemma UndoFault(d: Durable, pc: CleanPc, v: Vars, tx: Tx, call: Call)
    requires Facts(d) && CleanKnows(d, pc, v) && d.op.InProgress? && ToClean(pc) > 6
    ensures var step := CleanStep(d, true, pc, v, tx, call);
      && step.d.op.InProgress? && step.control.Clean?
      && (Regular(step.d, step.control.clean, step.control.vars) <==> Regular(d, pc, v) && Seen(pc, v, tx, call))
  {
  }

  lemma DropFault(d: Durable, pc: CleanPc, v: Vars, tx: Tx, call: Call)
    requires Facts(d) && CleanKnows(d, pc, v) && d.op.InProgress? && 1 < ToClean(pc) <= 6
    ensures var step := CleanStep(d, true, pc, v, tx, call);
      && step.d.op.InProgress? && step.control.Clean?
      && (Regular(step.d, step.control.clean, step.control.vars) <==> Regular(d, pc, v) && Seen(pc, v, tx, call))
  {
  }

  lemma FaultWhileCleaning(s: State, pc: CleanPc, v: Vars, tx: Tx, call: Call, load: Load)
    requires CleaningUp(s, pc, v)
    ensures var t := Next(s, Work(tx, call, load));
      var outcome := if Regular(s.d, pc, v) && Seen(pc, v, tx, call) then FailedTerminal else InProgress;
      if pc == Fail then t.control == Idle && t.d.op == outcome
      else Owns(t) && t.control.Clean? && Prospect(t) == outcome
  {
    if ToClean(pc) > 6 {
      UndoFault(s.d, pc, v, tx, call);
    } else if pc != Fail {
      DropFault(s.d, pc, v, tx, call);
    }
  }

  /** From every reachable state in which the coordinator handles a failure, one step that
      goes any way it can, followed by steps without a disturbance, is recorded as failed
      exactly if the handling was in order so far and the step counts as done; otherwise the
      operation is left to a reconciler. */
  lemma SecondFault(setup: Setup, events: seq<Event>, tx: Tx, call: Call, load: Load)
    requires var s := After(Init(setup), events); Owns(s) && s.control.Clean? && load.planned
    ensures var s := After(Init(setup), events); var pc, v := s.control.clean, s.control.vars;
      Smooth(Next(s, Work(tx, call, load)), load, 15).d.op ==
        if Regular(s.d, pc, v) && Seen(pc, v, tx, call) then FailedTerminal else InProgress
  {
    var s := After(Init(setup), events);
    ReachableShielded(setup, events);
    NextKeeps(s, Work(tx, call, load));
    NextShields(s, Work(tx, call, load));
    FaultWhileCleaning(s, s.control.clean, s.control.vars, tx, call, load);
    if s.control.clean == Fail {
      SmoothEnded(Next(s, Work(tx, call, load)), load, 15);
    } else {
      EndsAsExpected(Next(s, Work(tx, call, load)), load);
    }
  }

  // ---- Replies that do not arrive ----

  lemma RunReplyLost(d: Durable, owns: bool, pc: RunPc, call: Call, load: Load)
    ensures RunStep(d, owns, pc, LostReply, call, load).d == RunStep(d, owns, pc, Committed, call, load).d
  {
  }

  lemma CleanReplyLost(d: Durable, owns: bool, pc: CleanPc, v: Vars, call: Call)
    ensures CleanStep(d, owns, pc, v, LostReply, call).d == CleanStep(d, owns, pc, v, Committed, call).d
  {
  }

  lemma RecoverReplyLost(d: Durable, owns: bool, pc: RecoverPc, call: Call)
    ensures RecoverStep(d, owns, pc, LostReply, call).d == RecoverStep(d, owns, pc, Committed, call).d
  {
  }

  /** Whether the reply to a transaction arrives makes no difference to what it leaves. */
  lemma LostReplyLands(s: State, call: Call, load: Load)
    ensures Next(s, Work(LostReply, call, load)).d == Next(s, Work(Committed, call, load)).d
  {
    match s.control
    case Run(pc) => RunReplyLost(s.d, Owns(s), pc, call, load);
    case Clean(pc, v) => CleanReplyLost(s.d, Owns(s), pc, v, call);
    case Recover(pc) => RecoverReplyLost(s.d, Owns(s), pc, call);
    case _ =>
  }

  lemma CleanAnswerLost(d: Durable, owns: bool, pc: CleanPc, v: Vars, tx: Tx)
    ensures var e, f := CleanStep(d, owns, pc, v, tx, Unanswered).d, CleanStep(d, owns, pc, v, tx, Answered).d;
      e.rollback.stored == f.rollback.stored && e.result.stored == f.result.stored
  {
  }

  lemma RecoverAnswerLost(d: Durable, owns: bool, pc: RecoverPc, tx: Tx)
    ensures var e, f := RecoverStep(d, owns, pc, tx, Unanswered).d, RecoverStep(d, owns, pc, tx, Answered).d;
      e.rollback.stored == f.rollback.stored && e.result.stored == f.result.stored
  {
  }

  /** Nor does the answer to a call, for the snapshots the provider has. */
  lemma LostAnswerTakesEffect(s: State, tx: Tx, load: Load)
    ensures var e, f := Next(s, Work(tx, Unanswered, load)).d, Next(s, Work(tx, Answered, load)).d;
      e.rollback.stored == f.rollback.stored && e.result.stored == f.result.stored
  {
    match s.control
    case Clean(pc, v) => CleanAnswerLost(s.d, Owns(s), pc, v, tx);
    case Recover(pc) => RecoverAnswerLost(s.d, Owns(s), pc, tx);
    case _ =>
  }
}
