/** Provisioning a child agent as a state machine.  The coordinator creates four provider
    resources in a fixed order, ledgers each one, discards the first two after the owner's
    workspace has been exported, and commits the child; a reconciler takes over what a
    crashed coordinator leaves.  Crashes, takeovers, lost replies and ambiguous provider
    calls can happen at every step. */
module ChildProtocol {
  import opened Wrappers

  // ---- The request and the metadata written to the ledger ----

  datatype Request = Request(agent: string, ownerAgent: string, agentType: string, template: string,
                             ownerLease: string, key: string)

  datatype Owner = Owner(snapshot: string, sandbox: string, generation: nat)

  /** What does not change during one provisioning; `limit` is how many allocations of one
      operation the reconciler is prepared to list. */
  datatype Setup = Setup(request: Request, managedBy: string, owner: Owner, limit: nat)

  datatype Base = Base(childLease: string, childEnvironment: string, childSnapshot: string, childAgent: string,
                       ownerAgent: string, ownerLease: string, agentType: string, template: string)

  datatype Metadata = Metadata(managedBy: string, action: string, purpose: string, name: Option<string>,
                               owner: Option<Owner>, base: Base)

  datatype Kind = ProviderSnapshot | CaptureSandbox | Sandbox

  datatype State = Allocated | Adopted | Reclaimed

  datatype Entry = Entry(kind: Kind, resource: nat, metadata: Metadata, state: State)

  /** Identifiers and snapshot names are functions of the operation. */
  function Deterministic(prefix: string, key: string): string {
    prefix + "_" + key
  }

  function BaseOf(r: Request): Base {
    Base(Deterministic("lease", r.key), Deterministic("env", r.key), Deterministic("snapshot", r.key),
         r.agent, r.ownerAgent, r.ownerLease, r.agentType, r.template)
  }

  const CAPTURE := "child_capture"
  const RESULT := "child_result"

  /** The four provider resources: the owner's snapshot, the sandbox in which it is
      exported, the child's sandbox and the child's snapshot. */
  function KindOf(i: nat): Kind
    requires i < 4
  {
    if i == 1 then CaptureSandbox else if i == 2 then Sandbox else ProviderSnapshot
  }

  function PurposeOf(i: nat): string
    requires i < 4
  {
    if i == 0 then "owner_snapshot" else if i == 1 then "capture_sandbox"
    else if i == 2 then "result_sandbox" else "result_snapshot"
  }

  /** The metadata the coordinator writes with resource `i`. */
  function MetadataOf(c: Setup, i: nat): Metadata
    requires i < 4
  {
    Metadata(c.managedBy, if i < 2 then CAPTURE else RESULT, PurposeOf(i),
             if i == 0 then Some(Deterministic("capture", c.request.key))
             else if i == 3 then Some(Deterministic("result", c.request.key)) else None,
             if i == 0 then Some(c.owner) else None,
             BaseOf(c.request))
  }

  // ---- What survives a crash ----

  datatype Operation = InProgress | Succeeded | FailedTerminal

  datatype Preparation = NoPreparation | Publishing | Prepared | Aborting | Discarded | Committed

  /** A provider resource: whether it was ever created, whether the provider has it now,
      whether a request for it is unsettled, and its identifier. */
  datatype Slot = Slot(born: bool, stored: bool, requested: bool, id: nat)

  /** `objects` counts the operation's object allocations, in whatever state, and `open`
      those still to be reclaimed. */
  datatype Durable = Durable(op: Operation, lease: bool, slots: seq<Slot>, ledger: seq<Entry>,
                             preparation: Preparation, objects: nat, open: nat)

  function Empty(): Durable {
    Durable(InProgress, false, [Slot(false, false, false, 0), Slot(false, false, false, 0),
                                Slot(false, false, false, 0), Slot(false, false, false, 0)],
            [], NoPreparation, 0, 0)
  }

  predicate Fresh(d: Durable, id: nat) {
    forall i :: 0 <= i < |d.slots| ==> d.slots[i].born ==> d.slots[i].id != id
  }

  /** A request lands under an identifier the provider has not used before. */
  function Land(d: Durable, i: nat, id: nat): Durable
    requires i < |d.slots|
  {
    if d.slots[i].requested && Fresh(d, id)
    then d.(slots := d.slots[i := Slot(true, true, false, id)]) else d
  }

  function Drop(d: Durable, i: nat): Durable
    requires i < |d.slots|
  {
    d.(slots := d.slots[i := d.slots[i].(requested := false)])
  }

  function Gone(d: Durable, i: nat): Durable
    requires i < |d.slots|
  {
    d.(slots := d.slots[i := d.slots[i].(stored := false)])
  }

  function Listed(d: Durable, i: nat, state: State): Durable
    requires i < |d.ledger|
  {
    d.(ledger := d.ledger[i := d.ledger[i].(state := state)])
  }

  // ---- How steps end ----

  datatype Tx = Done | LostReply | Aborted

  datatype Call = Answered | Unanswered | Refused

  predicate Lands(tx: Tx) {
    tx.Done? || tx.LostReply?
  }

  predicate Effective(call: Call) {
    call.Answered? || call.Unanswered?
  }

  /** How a preparation ends: prepared; given up with everything listed reclaimed; or left
      behind in any state short of committed, with some objects. */
  datatype Preparing =
    | Ready(count: nat) | GivenUp(listed: nat) | LeftBehind(state: Preparation, listed: nat, left: nat)

  /** Everything a step does not control. */
  datatype Luck = Luck(tx: Tx, call: Call, id: nat, preparing: Preparing, left: nat)

  // ---- The coordinator ----

  datatype RunPc =
    | Check | Ask(i: nat) | Await(i: nat) | Record(i: nat) | Export | Discard(i: nat) | Upload
    | Prepare | Commit

  /** A resource in the coordinator's list: whether it knows the ledger entry, and whether
      it has reclaimed it. */
  datatype Resource = Resource(known: bool, reclaimed: bool)

  datatype Vars = Vars(resources: seq<Resource>, prepared: bool, ambiguous: bool, settled: bool, failed: bool)

  datatype CleanPc = Abort | DropHeld(left: nat) | Fail

  datatype RecoverPc =
    | Inspect | Validate | AbortObjects | DropListed(i: nat) | Kill(i: nat) | SandboxesGone
    | SweepSnapshot(i: nat) | Finish

  datatype Control =
    | Idle | Run(run: RunPc) | LateCaught | Clean(clean: CleanPc, vars: Vars) | Recover(recover: RecoverPc)

  datatype Step = Step(d: Durable, control: Control)

  const HELD := Resource(true, false)
  const DROPPED := Resource(true, true)

  /** The coordinator's list while it waits for or records resource `i`. */
  function Held(i: nat): seq<Resource> {
    if i == 0 then [] else if i == 1 then [HELD] else if i == 2 then [DROPPED, DROPPED]
    else if i == 3 then [DROPPED, DROPPED, HELD] else [DROPPED, DROPPED, HELD, HELD]
  }

  /** Entering the failure handling; `settled` says that no preparation can be left. */
  function Catch(resources: seq<Resource>, prepared: bool, ambiguous: bool, settled: bool): Control {
    Clean(Abort, Vars(resources, prepared, ambiguous, settled, false))
  }

  function AfterRecord(i: nat): RunPc {
    if i == 0 then Ask(1) else if i == 1 then Export else if i == 2 then Upload else Prepare
  }

  function AwaitStep(d: Durable, owns: bool, i: nat, l: Luck): Step
    requires i < |d.slots|
  {
    var e := if Effective(l.call) then Land(d, i, l.id) else d;
    Step(e, if l.call.Answered? && e.slots[i].stored && owns && l.tx.Done? then Run(Record(i))
            else Catch(Held(i), false, true, true))
  }

  function RecordStep(c: Setup, d: Durable, owns: bool, i: nat, l: Luck): Step
    requires i < 4 && i < |d.slots|
  {
    var unknown := Catch(Held(i) + [Resource(false, false)], false, false, true);
    if !owns || !Lands(l.tx) then Step(d, unknown)
    else Step(d.(ledger := d.ledger + [Entry(KindOf(i), d.slots[i].id, MetadataOf(c, i), Allocated)]),
              if l.tx.Done? then Run(AfterRecord(i)) else unknown)
  }

  /** Reclaiming a resource: fenced first, then deleted, then marked if the ledger entry is
      known. */
  function Reclaim(d: Durable, owns: bool, i: nat, known: bool, l: Luck): Durable
    requires i < |d.slots| && (known ==> i < |d.ledger|)
  {
    if !owns || !Effective(l.call) then d
    else if known && l.call.Answered? && Lands(l.tx) then Listed(Gone(d, i), i, Reclaimed)
    else Gone(d, i)
  }

  predicate ReclaimSeen(owns: bool, l: Luck) {
    owns && l.call.Answered? && l.tx.Done?
  }

  function DiscardStep(d: Durable, owns: bool, i: nat, l: Luck): Step
    requires i < 2 <= |d.slots| && 2 <= |d.ledger|
  {
    var held := if i == 1 then [HELD, HELD] else [HELD, DROPPED];
    Step(Reclaim(d, owns, i, true, l),
         if !ReclaimSeen(owns, l) then Catch(held, false, false, true)
         else if i == 1 then Run(Discard(0)) else Run(Ask(2)))
  }

  function PrepareStep(d: Durable, owns: bool, l: Luck): Step {
    match l.preparing
    case Ready(count) =>
      if owns then Step(d.(preparation := Prepared, objects := count, open := count), Run(Commit))
      else Step(d, Catch(Held(4), false, false, false))
    case GivenUp(listed) =>
      if owns then Step(d.(preparation := Discarded, objects := listed), Catch(Held(4), false, false, true))
      else Step(d, Catch(Held(4), false, false, false))
    case LeftBehind(state, listed, left) =>
      // Objects are registered under a preparation, so without one there are none.
      Step(if state.Committed? || left > listed || (state.NoPreparation? && listed > 0) || !owns then d
           else d.(preparation := state, objects := listed, open := left),
           Catch(Held(4), false, false, false))
  }

  /** The final transaction requires the exact ledger: capture reclaimed, result allocated. */
  predicate Exact(d: Durable) {
    && |d.ledger| == 4 && d.ledger[0].state == Reclaimed && d.ledger[1].state == Reclaimed
    && d.ledger[2].state == Allocated && d.ledger[3].state == Allocated
  }

  function CommitStep(d: Durable, owns: bool, l: Luck): Step {
    if !owns || !Lands(l.tx) || !Exact(d) then Step(d, LateCaught)
    else Step(Listed(Listed(d, 2, Adopted), 3, Adopted)
                .(op := Succeeded, lease := true, preparation := Committed, open := 0),
              if l.tx.Done? then Idle else LateCaught)
  }

  predicate RunPcOk(d: Durable, pc: RunPc) {
    && |d.slots| == 4
    && (pc.Ask? || pc.Await? || pc.Record? ==> pc.i < 4)
    && (pc.Discard? ==> pc.i < 2 <= |d.ledger|)
  }

  function RunStep(c: Setup, d: Durable, owns: bool, pc: RunPc, l: Luck): Step
    requires RunPcOk(d, pc)
  {
    match pc
    case Check =>
      Step(d, if owns && l.tx.Done? && l.call.Answered? then Run(Ask(0)) else Catch([], false, false, true))
    case Ask(i) => Step(d.(slots := d.slots[i := d.slots[i].(requested := true)]), Run(Await(i)))
    case Await(i) => AwaitStep(d, owns, i, l)
    case Record(i) => RecordStep(c, d, owns, i, l)
    case Export =>
      Step(d, if l.call.Answered? && owns && l.tx.Done? then Run(Discard(1))
              else Catch([HELD, HELD], false, false, true))
    case Discard(i) => DiscardStep(d, owns, i, l)
    case Upload =>
      Step(d, if l.call.Answered? && owns && l.tx.Done? then Run(Ask(3)) else Catch(Held(3), false, false, true))
    case Prepare => PrepareStep(d, owns, l)
    case Commit => CommitStep(d, owns, l)
  }

  /** After the final transaction was started: a success is returned, an operation still
      owned is cleaned up, anything else is left to the reconciler. */
  function LateStep(d: Durable, owns: bool, l: Luck): Control {
    if owns && l.call.Answered? then Catch(Held(4), true, false, true) else Idle
  }

  function AbortedObjects(d: Durable, left: nat): Durable {
    if d.preparation.NoPreparation? || d.preparation.Committed? || left > d.open then d
    else d.(preparation := if left == 0 then Discarded else Aborting, open := left)
  }

  predicate CleanOk(d: Durable, pc: CleanPc, v: Vars) {
    && |d.slots| == 4 && |v.resources| <= 4
    && (pc.DropHeld? ==> pc.left <= |v.resources|)
    && forall i :: 0 <= i < |v.resources| ==> v.resources[i].known ==> i < |d.ledger|
  }

  function CleanStep(d: Durable, owns: bool, pc: CleanPc, v: Vars, l: Luck): Step
    requires CleanOk(d, pc, v)
  {
    match pc
    case Abort =>
      if !v.prepared then Step(d, Clean(DropHeld(|v.resources|), v))
      else
        var e := if owns then AbortedObjects(d, l.left) else d;
        var ok := owns && l.call.Answered? && e.open == 0;
        Step(e, Clean(DropHeld(|v.resources|), v.(failed := v.failed || !ok)))
    case DropHeld(left) =>
      if left == 0 then Step(d, Clean(Fail, v))
      else if v.resources[left - 1].reclaimed then Step(d, Clean(DropHeld(left - 1), v))
      else Step(Reclaim(d, owns, left - 1, v.resources[left - 1].known, l),
                Clean(DropHeld(left - 1), v.(failed := v.failed || !ReclaimSeen(owns, l))))
    case Fail =>
      Step(if !v.failed && !v.ambiguous && v.settled && owns && Lands(l.tx) then d.(op := FailedTerminal) else d,
           Idle)
  }

  // ---- The reconciler ----

  /** The rows of the operation's ledger; a reclaimed allocation keeps its row. */
  function Rows(d: Durable): nat {
    |d.ledger| + d.objects
  }

  /** Listing the ledger throws when it has more rows than the limit. */
  predicate Listable(c: Setup, d: Durable) {
    Rows(d) <= c.limit
  }

  /** The object reclaimer is called with the same limit, even when there is nothing to
      reclaim, and refuses it outside its own range. */
  const MAX_RECLAIM_BATCH := 1000

  predicate LimitAccepted(c: Setup) {
    1 <= c.limit <= MAX_RECLAIM_BATCH
  }

  /** Beginning an abort without getting any further. */
  function AbortBegun(d: Durable): Durable {
    if d.preparation.Publishing? || d.preparation.Prepared? then d.(preparation := Aborting) else d
  }

  /** The request rebuilt from a base record, to compare with the operation's request. */
  function Rebuilt(base: Base, key: string): Request {
    Request(base.childAgent, base.ownerAgent, base.agentType, base.template, base.ownerLease, key)
  }

  /** The base record is acceptable for the operation: identifiers as computed, text
      present, owner lease as claimed. */
  predicate BaseOk(c: Setup, base: Base) {
    && base.childLease == Deterministic("lease", c.request.key)
    && base.childEnvironment == Deterministic("env", c.request.key)
    && base.childSnapshot == Deterministic("snapshot", c.request.key)
    && base.childAgent != "" && base.ownerAgent != "" && base.ownerLease != ""
    && base.agentType != "" && base.template != ""
    && base.ownerLease == c.request.ownerLease
  }

  predicate FirstOk(c: Setup, m: Metadata) {
    && m.owner.Some? && BaseOk(c, m.base) && Rebuilt(m.base, c.request.key) == c.request
    && m == Metadata(c.managedBy, CAPTURE, "owner_snapshot", Some(Deterministic("capture", c.request.key)),
                     m.owner, m.base)
  }

  predicate RestOk(c: Setup, i: nat, m: Metadata, base: Base)
    requires 1 <= i < 4
  {
    m == Metadata(c.managedBy, if i == 1 then CAPTURE else RESULT, PurposeOf(i),
                  if i == 3 then Some(Deterministic("result", c.request.key)) else None, None, base)
  }

  /** The graphs the reconciler accepts as abandoned by a coordinator. */
  predicate Accepts(c: Setup, d: Durable) {
    && (forall i :: 0 <= i < |d.ledger| ==> d.ledger[i].state != Adopted)
    && if |d.ledger| == 0 then d.objects == 0 && d.preparation == NoPreparation
       else
         && |d.ledger| <= 4 && (d.objects > 0 ==> |d.ledger| == 4)
         && (forall i :: 0 <= i < |d.ledger| ==>
               d.ledger[i].kind == KindOf(i) && d.ledger[i].metadata.purpose == PurposeOf(i))
         && (forall i, j :: 0 <= i < j < |d.ledger| ==>
               d.ledger[i].kind != d.ledger[j].kind || d.ledger[i].resource != d.ledger[j].resource)
         && FirstOk(c, d.ledger[0].metadata)
         && (forall i :: 1 <= i < |d.ledger| ==> RestOk(c, i, d.ledger[i].metadata, d.ledger[0].metadata.base))
  }

  /** A preparation can only be aborted after all four resources were listed. */
  predicate Abortable(d: Durable) {
    d.preparation != Committed && (d.preparation != NoPreparation ==> |d.ledger| == 4)
  }

  predicate Unreclaimed(d: Durable, i: nat) {
    i < |d.ledger| && d.ledger[i].state != Reclaimed
  }

  /** The inventory sweep spares what the unfinished operation still lists. */
  function Sweep(d: Durable, owns: bool, i: nat, l: Luck): Durable
    requires i < |d.slots|
  {
    if owns && !Unreclaimed(d, i) && Effective(l.call) then Gone(d, i) else d
  }

  predicate RecoverOk(d: Durable, pc: RecoverPc) {
    && |d.slots| == 4
    && (pc.DropListed? ==> pc.i <= 4)
    && (pc.Kill? || pc.SweepSnapshot? ==> pc.i < 4)
  }

  /** The ledger is listed once, before the first of its entries is looked at. */
  function DropListedStep(c: Setup, d: Durable, owns: bool, i: nat, l: Luck): Step
    requires i <= 4 <= |d.slots|
  {
    if i == 0 && !Listable(c, d) then Step(d, Idle)
    else if i == 4 then Step(d, Recover(Kill(1)))
    else if i >= |d.ledger| || d.ledger[i].state == Reclaimed then Step(d, Recover(DropListed(i + 1)))
    else if d.ledger[i].state == Adopted then Step(d, Idle)
    else Step(Reclaim(d, owns, i, true, l), if ReclaimSeen(owns, l) then Recover(DropListed(i + 1)) else Idle)
  }

  function RecoverStep(c: Setup, d: Durable, owns: bool, pc: RecoverPc, l: Luck): Step
    requires RecoverOk(d, pc)
  {
    match pc
    case Inspect =>
      Step(d, if owns && l.call.Answered? && Listable(c, d) && !d.lease then Recover(Validate) else Idle)
    case Validate => Step(d, if l.call.Answered? && Accepts(c, d) then Recover(AbortObjects) else Idle)
    case AbortObjects =>
      if !owns || !Abortable(d) then Step(d, Idle)
      else if !LimitAccepted(c) then Step(AbortBegun(d), Idle)
      else Step(AbortedObjects(d, l.left), if l.call.Answered? then Recover(DropListed(0)) else Idle)
    case DropListed(i) => DropListedStep(c, d, owns, i, l)
    case Kill(i) =>
      Step(Sweep(d, owns, i, l),
           if !owns || !l.call.Answered? then Idle else if i == 1 then Recover(Kill(2)) else Recover(SandboxesGone))
    case SandboxesGone =>
      Step(d, if owns && l.call.Answered? && !d.slots[1].stored && !d.slots[2].stored
              then Recover(SweepSnapshot(0)) else Idle)
    case SweepSnapshot(i) =>
      var e := Sweep(d, owns, i, l);
      Step(e, if !owns || !l.call.Answered? || e.slots[i].stored then Idle
              else if i == 0 then Recover(SweepSnapshot(3)) else Recover(Finish))
    case Finish =>
      Step(if owns && Listable(c, d) && Lands(l.tx) && !d.lease && d.open == 0
              && (forall i :: 0 <= i < |d.ledger| ==> d.ledger[i].state == Reclaimed)
           then d.(op := FailedTerminal) else d, Idle)
  }

  // ---- Events ----

  datatype World = World(d: Durable, generation: nat, waiting: set<nat>, owner: nat, control: Control)

  datatype Event =
    | Claim | Acquire(generation: nat) | Crash | Landing(i: nat, id: nat) | Dropping(i: nat) | Work(luck: Luck)

  predicate Owns(s: World) {
    s.d.op.InProgress? && s.generation == s.owner
  }

  predicate Ok(d: Durable, control: Control) {
    && |d.slots| == 4
    && match control
       case Run(pc) => RunPcOk(d, pc)
       case Clean(pc, v) => CleanOk(d, pc, v)
       case Recover(pc) => RecoverOk(d, pc)
       case _ => true
  }

  function WorkStep(c: Setup, d: Durable, owns: bool, control: Control, l: Luck): Step
    requires Ok(d, control)
  {
    match control
    case Idle => Step(d, Idle)
    case Run(pc) => RunStep(c, d, owns, pc, l)
    case LateCaught => Step(d, LateStep(d, owns, l))
    case Clean(pc, v) => CleanStep(d, owns, pc, v, l)
    case Recover(pc) => RecoverStep(c, d, owns, pc, l)
  }

  predicate NothingRequested(d: Durable) {
    forall i :: 0 <= i < |d.slots| ==> !d.slots[i].requested
  }

  /** As for patches, an unsettled request settles before the next worker obtains the lock. */
  function Next(c: Setup, s: World, e: Event): World
    requires Ok(s.d, s.control)
  {
    match e
    case Claim =>
      if s.d.op.InProgress?
      then s.(generation := s.generation + 1, waiting := s.waiting + {s.generation + 1}) else s
    case Acquire(g) =>
      if s.control.Idle? && g in s.waiting && NothingRequested(s.d)
      then s.(waiting := s.waiting - {g}, owner := g, control := if g == 0 then Run(Check) else Recover(Inspect))
      else s
    case Crash => s.(control := Idle)
    case Landing(i, id) => if i < 4 then s.(d := Land(s.d, i, id)) else s
    case Dropping(i) => if i < 4 then s.(d := Drop(s.d, i)) else s
    case Work(l) =>
      var step := WorkStep(c, s.d, Owns(s), s.control, l);
      s.(d := step.d, control := step.control)
  }
}
