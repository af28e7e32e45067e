/** The durable references one agent's thread holds, changed by revision compare-and-set. */
module ReferenceRetention {
  import opened Wrappers

  /** The largest revision the service can represent exactly. */
  const MAX_SAFE_INTEGER := 9007199254740991

  /** What the agent wants kept; the stored hash identifies it. */
  datatype Desired = Keep(lease: string, base: string, latest: string, artifact: Option<string>) | Nothing

  type Wanted = d: Desired | d.Keep? witness Keep("", "", "", None)

  datatype Row = Row(lease: string, desired: Desired, revision: nat, cleared: bool)

  datatype Outcome = Accepted(revision: nat, desired: Desired) | Rejected(status: nat)

  /** `authorized` says that the lease, the snapshots and the artifact belong to the agent. */
  datatype Call =
    | Retain(wanted: Wanted, expected: Option<nat>, authorized: bool)
    | Clear(lease: string, current: nat)

  datatype Step = Step(row: Option<Row>, outcome: Outcome)

  function Retained(row: Option<Row>, desired: Wanted, expected: Option<nat>, authorized: bool): Step {
    if !authorized then Step(row, Rejected(404))
    else match row
      case None =>
        if expected.Some? then Step(row, Rejected(409))
        else Step(Some(Row(desired.lease, desired, 1, false)), Accepted(1, desired))
      case Some(r) =>
        if r.cleared || (expected.Some? && expected.value > r.revision)
           || (r.desired != desired && expected != Some(r.revision))
        then Step(row, Rejected(409))
        else if r.desired == desired then Step(row, Accepted(r.revision, desired))
        else if r.revision + 1 > MAX_SAFE_INTEGER then Step(row, Rejected(503))
        else Step(Some(Row(desired.lease, desired, r.revision + 1, false)), Accepted(r.revision + 1, desired))
  }

  function Cleared(row: Option<Row>, lease: string, expected: nat): Step {
    if expected == 0 || expected > MAX_SAFE_INTEGER then Step(row, Rejected(400))
    else if row.None? || row.value.lease != lease then Step(row, Rejected(404))
    else
      var r := row.value;
      if expected > r.revision || (!r.cleared && expected != r.revision) then Step(row, Rejected(409))
      else if r.cleared then Step(row, Accepted(r.revision, r.desired))
      else if r.revision + 1 > MAX_SAFE_INTEGER then Step(row, Rejected(503))
      else Step(Some(Row(r.lease, Nothing, r.revision + 1, true)), Accepted(r.revision + 1, Nothing))
  }

  function Apply(row: Option<Row>, call: Call): Step {
    match call
    case Retain(desired, expected, authorized) => Retained(row, desired, expected, authorized)
    case Clear(lease, expected) => Cleared(row, lease, expected)
  }

  /** The row and the references as the transactions update them. */
  class ReferenceSet {
    var row: Option<Row>
    var snapshots: set<string>
    var artifacts: set<string>

    /** The references are exactly what the row says is wanted. */
    predicate Synchronized()
      reads this
    {
      && snapshots == SnapshotsOf(row) && artifacts == ArtifactsOf(row)
      && (row.Some? ==> WellFormed(row.value))
    }

    constructor ()
      ensures row == None && Synchronized()
    {
      row, snapshots, artifacts := None, {}, {};
    }

    method RetainReferences(desired: Wanted, expected: Option<nat>, authorized: bool) returns (r: Outcome)
      requires Synchronized()
      modifies this
      ensures Synchronized()
      ensures Step(row, r) == Retained(old(row), desired, expected, authorized)
      ensures r.Accepted? ==> snapshots == {desired.base, desired.latest}
      ensures r.Accepted? ==> artifacts == if desired.artifact.Some? then {desired.artifact.value} else {}
    {
      if !authorized { return Rejected(404); }
      var revision := 1;
      if row.None? {
        if expected.Some? { return Rejected(409); }
        row := Some(Row(desired.lease, desired, 1, false));
      } else {
        if row.value.cleared { return Rejected(409); }
        var current := row.value.revision;
        if (expected.Some? && expected.value > current) || (row.value.desired != desired && expected != Some(current)) {
          return Rejected(409);
        }
        revision := if row.value.desired == desired then current else current + 1;
        if revision > MAX_SAFE_INTEGER && revision != current { return Rejected(503); }
        if revision != current {
          row := Some(Row(desired.lease, desired, revision, false));
        }
      }
      // Add what is wanted, then delete everything else.
      snapshots := snapshots + {desired.base, desired.latest};
      snapshots := set x | x in snapshots && x in {desired.base, desired.latest};
      if desired.artifact.None? {
        artifacts := {};
      } else {
        artifacts := artifacts + {desired.artifact.value};
        artifacts := set x | x in artifacts && x == desired.artifact.value;
      }
      r := Accepted(revision, desired);
    }

    method ClearReferences(lease: string, expected: nat) returns (r: Outcome)
      requires Synchronized()
      modifies this
      ensures Synchronized()
      ensures Step(row, r) == Cleared(old(row), lease, expected)
      ensures r.Accepted? ==> snapshots == {} && artifacts == {}
    {
      if expected == 0 || expected > MAX_SAFE_INTEGER { return Rejected(400); }
      if row.None? || row.value.lease != lease { return Rejected(404); }
      var current := row.value.revision;
      if expected > current || (!row.value.cleared && expected != current) { return Rejected(409); }
      var revision, desired := current, row.value.desired;
      if !row.value.cleared {
        revision := current + 1;
        if revision > MAX_SAFE_INTEGER { return Rejected(503); }
        desired := Nothing;
        row := Some(Row(row.value.lease, Nothing, revision, true));
      }
      artifacts := {};
      snapshots := {};
      r := Accepted(revision, desired);
    }
  }

  predicate WellFormed(row: Row) {
    row.revision > 0 && (row.cleared <==> row.desired == Nothing)
  }

  function SnapshotsOf(row: Option<Row>): set<string> {
    if row.Some? && row.value.desired.Keep? then {row.value.desired.base, row.value.desired.latest} else {}
  }

  function ArtifactsOf(row: Option<Row>): set<string> {
    if row.Some? && row.value.desired.Keep? && row.value.desired.artifact.Some?
    then {row.value.desired.artifact.value} else {}
  }

  // ---- Sequences of calls ----

  function After(calls: seq<Call>): Option<Row> {
    if calls == [] then None else Apply(After(calls[..|calls| - 1]), calls[|calls| - 1]).row
  }

  lemma {:induction false} RowWellFormed(calls: seq<Call>)
    ensures After(calls).Some? ==> WellFormed(After(calls).value)
  {
    if calls != [] {
      RowWellFormed(calls[..|calls| - 1]);
    }
  }

  /** Over any continuation the row stays, the revision rises exactly as often as the
      desired set changes, equal revisions carry equal sets, and a clear is final. */
  lemma {:induction false} RevisionsTell(calls: seq<Call>, i: nat)
    requires i <= |calls| && After(calls[..i]).Some?
    ensures After(calls).Some?
    ensures var r, q := After(calls[..i]).value, After(calls).value;
      && r.revision <= q.revision && (r.revision == q.revision ==> q == r) && (r.cleared ==> q == r)
      && q.revision - r.revision == Changes(calls, i)
  {
    if i == |calls| {
      assert calls[..i] == calls;
    } else {
      var before := calls[..|calls| - 1];
      assert before[..i] == calls[..i];
      RevisionsTell(before, i);
      RowWellFormed(before);
    }
  }

  /** How many calls from `i` on replaced the desired set by another one. */
  function Changes(calls: seq<Call>, i: nat): nat
    requires i <= |calls|
    decreases |calls|
  {
    if i == |calls| then 0
    else
      Changes(calls[..|calls| - 1], i)
      + if After(calls[..|calls| - 1]).Some? && After(calls).Some?
           && After(calls[..|calls| - 1]).value.desired != After(calls).value.desired then 1 else 0
  }

  /** In one sequence of calls no revision is ever accepted for two desired sets. */
  lemma OneSetPerRevision(calls: seq<Call>, i: nat, j: nat)
    requires i < |calls| && j < |calls|
    ensures var a := Apply(After(calls[..i]), calls[i]).outcome; var b := Apply(After(calls[..j]), calls[j]).outcome;
      a.Accepted? && b.Accepted? && a.revision == b.revision ==> a.desired == b.desired
  {
    if i <= j {
      LaterAccepts(calls, i, j);
    } else {
      LaterAccepts(calls, j, i);
    }
  }

  lemma LaterAccepts(calls: seq<Call>, i: nat, j: nat)
    requires i <= j < |calls|
    ensures var a := Apply(After(calls[..i]), calls[i]).outcome; var b := Apply(After(calls[..j]), calls[j]).outcome;
      a.Accepted? && b.Accepted? && a.revision == b.revision ==> a.desired == b.desired
  {
    AcceptedIsRow(calls, i);
    AcceptedIsRow(calls, j);
    if After(calls[..i + 1]).Some? {
      assert calls[..j + 1][..i + 1] == calls[..i + 1];
      RevisionsTell(calls[..j + 1], i + 1);
    }
  }

  /** An accepted call reports the row it leaves. */
  lemma AcceptedIsRow(calls: seq<Call>, i: nat)
    requires i < |calls|
    ensures var a := Apply(After(calls[..i]), calls[i]).outcome; var row := After(calls[..i + 1]);
      a.Accepted? ==> row.Some? && row.value.revision == a.revision && row.value.desired == a.desired
  {
    assert calls[..i + 1][..i] == calls[..i];
  }

  /** Retrying the current set, with no or an earlier expected revision, returns the current
      revision and changes nothing. */
  lemma RetryReturnsCurrent(calls: seq<Call>, wanted: Wanted, expected: Option<nat>)
    requires After(calls).Some? && After(calls).value.desired == wanted
    requires expected.Some? ==> expected.value <= After(calls).value.revision
    ensures var r := After(calls).value;
      Apply(After(calls), Retain(wanted, expected, true)) == Step(Some(r), Accepted(r.revision, wanted))
  {
    RowWellFormed(calls);
  }

  /** After a clear was accepted, no retain is accepted again. */
  lemma ClearIsFinal(calls: seq<Call>, i: nat, j: nat)
    requires i < j < |calls| && calls[i].Clear? && calls[j].Retain?
    requires Apply(After(calls[..i]), calls[i]).outcome.Accepted?
    ensures Apply(After(calls[..j]), calls[j]).outcome.Rejected?
  {
    RowWellFormed(calls[..i]);
    assert calls[..i + 1][..i] == calls[..i];
    assert calls[..j][..i + 1] == calls[..i + 1];
    RevisionsTell(calls[..j], i + 1);
  }

  /** A set other than the present one is accepted exactly with the present revision, as long
      as revisions are left and the references were not cleared. */
  lemma ChangeAcceptedExactly(calls: seq<Call>, wanted: Wanted, expected: Option<nat>, authorized: bool)
    requires After(calls).Some? && After(calls).value.desired != wanted
    ensures var r := After(calls).value;
      Apply(After(calls), Retain(wanted, expected, authorized)).outcome.Accepted? <==>
        authorized && r.desired != Nothing && expected == Some(r.revision) && r.revision < MAX_SAFE_INTEGER
  {
    RowWellFormed(calls);
  }

  /** The first set is accepted exactly without an expected revision. */
  lemma FirstAcceptedExactly(calls: seq<Call>, wanted: Wanted, expected: Option<nat>, authorized: bool)
    requires After(calls).None?
    ensures Apply(After(calls), Retain(wanted, expected, authorized)).outcome.Accepted? <==>
              authorized && expected.None?
  {
  }

  /** Whether the `i`th call changes the present set. */
  predicate ChangesSet(calls: seq<Call>, i: nat)
    requires i < |calls|
  {
    && After(calls[..i]).Some? && Apply(After(calls[..i]), calls[i]).outcome.Accepted?
    && After(calls[..i]).value.desired != Apply(After(calls[..i]), calls[i]).outcome.desired
  }

  /** A revision is the basis of at most one change: of two writers that both saw it, the
      second is refused. */
  lemma OneChangePerRevision(calls: seq<Call>, i: nat, j: nat)
    requires i < j < |calls| && calls[i].Retain? && calls[j].Retain?
    requires ChangesSet(calls, i) && ChangesSet(calls, j)
    ensures calls[i].expected.Some? && calls[j].expected.Some?
    ensures calls[i].expected.value < calls[j].expected.value
  {
    AcceptedIsRow(calls, i);
    ChangeAcceptedExactly(calls[..i], calls[i].wanted, calls[i].expected, calls[i].authorized);
    ChangeAcceptedExactly(calls[..j], calls[j].wanted, calls[j].expected, calls[j].authorized);
    assert calls[..i + 1][..i] == calls[..i];
    assert calls[..j][..i + 1] == calls[..i + 1];
    RevisionsTell(calls[..j], i + 1);
  }
}
