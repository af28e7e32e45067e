/** The durable row of one patch application and the transitions its repository offers. */
module PatchApplicationRow {
  datatype Phase =
    | Planned | RollbackReady | SwapStarted | Swapped | Checkpointed
    | RollbackStarted | RolledBack | Failed

  datatype Result<T> = Ok(value: T) | Conflict | NotOwner

  /** The identity of the rollback snapshot, recorded once. */
  datatype Rollback = NoRollback | Recorded(allocationId: nat, providerSnapshotId: string)

  datatype Row = Row(phase: Phase, rollback: Rollback)

  // ---- The transitions as functions of the row ----

  function Transition(phase: Phase, expected: Phase, next: Phase): Result<Phase> {
    if phase == next then Ok(phase)
    else if phase == expected then Ok(next)
    else Conflict
  }

  function BeginRollback(phase: Phase): Result<Phase> {
    if phase.RollbackStarted? || phase.RolledBack? then Ok(phase)
    else if phase.RollbackReady? || phase.SwapStarted? || phase.Swapped? then Ok(RollbackStarted)
    else Conflict
  }

  /** `published` says that the result snapshot is available and the lease's latest. */
  function MarkCheckpointed(phase: Phase, published: bool): Result<Phase> {
    if (phase.Swapped? || phase.Checkpointed?) && published then Ok(Checkpointed) else Conflict
  }

  /** `valid` says that the allocation exists for this operation and snapshot. */
  function RecordRollback(row: Row, rollback: Rollback, valid: bool): Result<Row> {
    if !row.phase.Planned? then (if row.rollback == rollback then Ok(row) else Conflict)
    else if valid then Ok(Row(RollbackReady, rollback))
    else Conflict
  }

  // ---- The database's own rules for the same row ----

  /** The moves the table's update trigger lets through. */
  predicate TriggerAllows(from: Phase, to: Phase) {
    || from == to
    || (from.Planned? && (to.RollbackReady? || to.Failed?))
    || (from.RollbackReady? && (to.SwapStarted? || to.RollbackStarted?))
    || (from.SwapStarted? && (to.Swapped? || to.RollbackStarted?))
    || (from.Swapped? && (to.Checkpointed? || to.RollbackStarted?))
    || (from.RollbackStarted? && to.RolledBack?)
  }

  /** The table's check constraint: a rollback identity exactly outside planned and failed. */
  predicate RowConstraint(row: Row) {
    (row.phase.Planned? || row.phase.Failed?) <==> row.rollback.NoRollback?
  }

  /** The row as the repository updates it.  Every method first locks the row through the
      operation's fence; without ownership nothing changes. */
  class PatchApplication {
    var row: Row

    constructor ()
      ensures row == Row(Planned, NoRollback)
    {
      row := Row(Planned, NoRollback);
    }

    method Move(owned: bool, expected: Phase, next: Phase) returns (r: Result<Phase>)
      requires RowConstraint(row)
      requires TriggerAllows(expected, next) && !next.RollbackReady?
      modifies this
      ensures r == if owned then Transition(old(row).phase, expected, next) else NotOwner
      ensures row == if r.Ok? then old(row).(phase := next) else old(row)
      ensures TriggerAllows(old(row).phase, row.phase) && RowConstraint(row)
    {
      if !owned { return NotOwner; }
      if row.phase == next { return Ok(row.phase); }
      if row.phase != expected { return Conflict; }
      row := row.(phase := next);
      r := Ok(next);
    }

    method RecordRollbackIdentity(owned: bool, rollback: Rollback, valid: bool) returns (r: Result<Row>)
      requires RowConstraint(row) && rollback.Recorded?
      modifies this
      ensures r == if owned then RecordRollback(old(row), rollback, valid) else NotOwner
      ensures row == if r.Ok? then r.value else old(row)
      ensures TriggerAllows(old(row).phase, row.phase) && RowConstraint(row)
      ensures r.Ok? ==> row.rollback == rollback
      ensures old(row).rollback.Recorded? ==> row.rollback == old(row).rollback
    {
      if !owned { return NotOwner; }
      if !row.phase.Planned? {
        if row.rollback == rollback { return Ok(row); }
        return Conflict;
      }
      if !valid { return Conflict; }
      row := Row(RollbackReady, rollback);
      r := Ok(row);
    }

    method StartRollback(owned: bool) returns (r: Result<Phase>)
      requires RowConstraint(row)
      modifies this
      ensures r == if owned then BeginRollback(old(row).phase) else NotOwner
      ensures row == if r.Ok? then old(row).(phase := r.value) else old(row)
      ensures TriggerAllows(old(row).phase, row.phase) && RowConstraint(row)
    {
      if !owned { return NotOwner; }
      if row.phase.RollbackStarted? || row.phase.RolledBack? { return Ok(row.phase); }
      if !(row.phase.RollbackReady? || row.phase.SwapStarted? || row.phase.Swapped?) { return Conflict; }
      row := row.(phase := RollbackStarted);
      r := Ok(RollbackStarted);
    }

    method Checkpoint(owned: bool, published: bool) returns (r: Result<Phase>)
      requires RowConstraint(row)
      modifies this
      ensures r == if owned then MarkCheckpointed(old(row).phase, published) else NotOwner
      ensures row == if r.Ok? then old(row).(phase := Checkpointed) else old(row)
      ensures TriggerAllows(old(row).phase, row.phase) && RowConstraint(row)
    {
      if !owned { return NotOwner; }
      if !row.phase.Swapped? && !row.phase.Checkpointed? { return Conflict; }
      if !published { return Conflict; }
      if !row.phase.Checkpointed? {
        row := row.(phase := Checkpointed);
      }
      r := Ok(Checkpointed);
    }
  }

  // ---- Whole lives of a row ----

  ghost predicate AllowedLife(phases: seq<Phase>) {
    forall i :: 0 <= i < |phases| - 1 ==> TriggerAllows(phases[i], phases[i + 1])
  }

  predicate Terminal(phase: Phase) {
    phase.Checkpointed? || phase.RolledBack? || phase.Failed?
  }

  lemma {:induction false} TerminalStays(phases: seq<Phase>, i: nat, j: nat)
    requires AllowedLife(phases) && i <= j < |phases| && Terminal(phases[i])
    ensures phases[j] == phases[i]
  {
    if i < j {
      TerminalStays(phases, i, j - 1);
      assert TriggerAllows(phases[j - 1], phases[j - 1 + 1]);
    }
  }

  /** No life of a row sees two of the outcomes checkpointed, rolled back and failed. */
  lemma OneOutcome(phases: seq<Phase>, i: nat, j: nat)
    requires AllowedLife(phases) && i < |phases| && j < |phases|
    requires Terminal(phases[i]) && Terminal(phases[j])
    ensures phases[i] == phases[j]
  {
    if i <= j {
      TerminalStays(phases, i, j);
    } else {
      TerminalStays(phases, j, i);
    }
  }
}
