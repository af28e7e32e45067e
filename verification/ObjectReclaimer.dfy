/** Object rows, the bytes they name and the reclaimer.  Several rows can name one storage
    location.  A snapshot's publication stores bytes and registers their row under the lock
    on their location; a patch export stores its bytes first and locks only to register.  A
    reclaim locks the location, decides in one transaction, deletes the bytes, and records
    the deletion in a second transaction; it can stop between any two of these. */
module ObjectReclaimer {
  datatype ObjectState = Available | Deleting | Deleted

  /** `references` counts every durable reference; each is added to an available row. */
  datatype Row = Row(location: nat, state: ObjectState, references: nat)

  /** The three entry points: a source archive whose publication failed, one allocation of
      an operation, and the recovery of rows left deleting. */
  datatype Kind = Archive | Allocation | Recovery

  /** `checked` says that the shared-location query ran; `shared` what it would have found. */
  datatype Stage = Started | ToErase(checked: bool, shared: bool) | ToRecord

  datatype Job = Job(kind: Kind, id: nat, location: nat, stage: Stage)

  /** `stored` has the locations with bytes, `unswept` those at which a row has been
      registered since bytes were last erased there, `exports` where an export put the
      bytes of its object. */
  datatype State = State(rows: map<nat, Row>, stored: set<nat>, unswept: set<nat>, exports: map<nat, nat>,
                         locks: map<nat, nat>, jobs: map<nat, Job>)

  /** A publication can stop after the bytes are stored, before its row is registered. */
  datatype Event =
    | Publish(id: nat, location: nat, registers: bool)
    | Put(id: nat, location: nat) | Register(id: nat)
    | AddReference(id: nat) | DropReference(id: nat)
    | Start(worker: nat, kind: Kind, id: nat, location: nat)
    | Decide(worker: nat, owned: bool) | Erase(worker: nat) | Record(worker: nat) | Stop(worker: nat)

  function Init(): State {
    State(map[], {}, {}, map[], map[], map[])
  }

  /** Another row that is not deleted names the location. */
  predicate Shared(rows: map<nat, Row>, id: nat, location: nat) {
    exists o :: o in rows && o != id && rows[o].location == location && rows[o].state != Deleted
  }

  function Mark(s: State, id: nat, state: ObjectState): State {
    if id in s.rows then s.(rows := s.rows[id := s.rows[id].(state := state)]) else s
  }

  function Release(s: State, w: nat): State
    requires w in s.jobs
  {
    s.(jobs := s.jobs - {w}, locks := s.locks - {s.jobs[w].location})
  }

  function ToStage(s: State, w: nat, stage: Stage): State
    requires w in s.jobs
  {
    s.(jobs := s.jobs[w := s.jobs[w].(stage := stage)])
  }

  /** The first transaction of reclaiming an operation's allocation.  A row found deleting
      goes straight to the erasure. */
  function DecideAllocation(s: State, w: nat, owned: bool): State
    requires w in s.jobs
  {
    var j := s.jobs[w];
    var shared := Shared(s.rows, j.id, j.location);
    if !owned || j.id !in s.rows || s.rows[j.id].state == Deleted then Release(s, w)
    else if s.rows[j.id].state == Deleting then ToStage(s, w, ToErase(false, shared))
    else if s.rows[j.id].references > 0 then Release(s, w)
    else if shared then Release(Mark(s, j.id, Deleted), w)
    else ToStage(Mark(s, j.id, Deleting), w, ToErase(true, false))
  }

  function DecideRecovery(s: State, w: nat): State
    requires w in s.jobs
  {
    var j := s.jobs[w];
    if j.id !in s.rows || s.rows[j.id].state != Deleting then Release(s, w)
    else if Shared(s.rows, j.id, j.location) then Release(Mark(s, j.id, Deleted), w)
    else ToStage(s, w, ToErase(true, false))
  }

  /** A source archive need not have a row at all. */
  function DecideArchive(s: State, w: nat): State
    requires w in s.jobs
  {
    var j := s.jobs[w];
    if j.id in s.rows
       && (s.rows[j.id].location != j.location || s.rows[j.id].state == Deleted
           || (s.rows[j.id].state == Available && s.rows[j.id].references > 0))
    then Release(s, w)
    else if Shared(s.rows, j.id, j.location) then Release(Mark(s, j.id, Deleted), w)
    else ToStage(Mark(s, j.id, Deleting), w, ToErase(true, false))
  }

  /** A row that exists already is left as it is. */
  function AddRow(s: State, id: nat, location: nat): State {
    if id in s.rows then s
    else s.(rows := s.rows[id := Row(location, Available, 0)], unswept := s.unswept + {location})
  }

  function Next(s: State, e: Event): State {
    match e
    case Publish(id, location, registers) =>
      if location in s.locks then s
      else
        var put := s.(stored := s.stored + {location});
        if registers then AddRow(put, id, location) else put
    case Put(id, location) => s.(stored := s.stored + {location}, exports := s.exports[id := location])
    case Register(id) =>
      if id !in s.exports || s.exports[id] in s.locks then s else AddRow(s, id, s.exports[id])
    case AddReference(id) =>
      if id in s.rows && s.rows[id].state == Available
      then s.(rows := s.rows[id := s.rows[id].(references := s.rows[id].references + 1)]) else s
    case DropReference(id) =>
      if id in s.rows && s.rows[id].references > 0
      then s.(rows := s.rows[id := s.rows[id].(references := s.rows[id].references - 1)]) else s
    case Start(w, kind, id, location) =>
      if w in s.jobs || location in s.locks
         || (kind != Archive && !(id in s.rows && s.rows[id].location == location)) then s
      else s.(jobs := s.jobs[w := Job(kind, id, location, Started)], locks := s.locks[location := w])
    case Decide(w, owned) =>
      if w !in s.jobs || s.jobs[w].stage != Started then s
      else (match s.jobs[w].kind
            case Archive => DecideArchive(s, w)
            case Allocation => DecideAllocation(s, w, owned)
            case Recovery => DecideRecovery(s, w))
    case Erase(w) =>
      if w !in s.jobs || !s.jobs[w].stage.ToErase? then s
      else ToStage(s, w, ToRecord).(stored := s.stored - {s.jobs[w].location},
                                    unswept := s.unswept - {s.jobs[w].location})
    case Record(w) =>
      if w !in s.jobs || !s.jobs[w].stage.ToRecord? then s
      else
        var id := s.jobs[w].id;
        Release(if id in s.rows && s.rows[id].location == s.jobs[w].location && s.rows[id].state == Deleting
                then Mark(s, id, Deleted) else s, w)
    case Stop(w) => if w in s.jobs then Release(s, w) else s
  }

  function After(events: seq<Event>): State {
    if events == [] then Init() else Next(After(events[..|events| - 1]), events[|events| - 1])
  }

  // ---- The invariant ----

  ghost predicate LocksAgree(s: State) {
    forall w :: w in s.jobs ==> s.jobs[w].location in s.locks && s.locks[s.jobs[w].location] == w
  }

  predicate JobAgrees(s: State, j: Job) {
    && (j.kind != Archive ==> j.id in s.rows && s.rows[j.id].location == j.location)
    && (j.stage != Started && j.id in s.rows && s.rows[j.id].location == j.location ==>
          s.rows[j.id].state == Deleting)
    && (j.stage.ToErase? ==>
          && (j.stage.shared <==> Shared(s.rows, j.id, j.location)) && (j.stage.checked ==> !j.stage.shared)
          && (j.kind != Allocation ==> j.stage.checked))
    && (j.stage.ToRecord? ==> j.location !in s.unswept)
  }

  ghost predicate JobsAgree(s: State) {
    forall w :: w in s.jobs ==> JobAgrees(s, s.jobs[w])
  }

  /** A row that is being deleted or is deleted has no reference. */
  ghost predicate ReferencesAgree(s: State) {
    forall o :: o in s.rows ==> s.rows[o].state != Available ==> s.rows[o].references == 0
  }

  predicate Named(rows: map<nat, Row>, location: nat) {
    exists o :: o in rows && rows[o].location == location && rows[o].state != Deleted
  }

  ghost predicate SweptAgrees(s: State) {
    forall location :: location in s.unswept ==> Named(s.rows, location)
  }

  ghost predicate Inv(s: State) {
    LocksAgree(s) && JobsAgree(s) && ReferencesAgree(s) && SweptAgrees(s)
  }

  // ---- Every event keeps it ----

  /** A change to a row at one location is invisible at every other location. */
  lemma OtherLocation(s: State, id: nat, row: Row, j: Job)
    requires id in s.rows && row.location == s.rows[id].location && j.location != row.location && JobAgrees(s, j)
    ensures JobAgrees(s.(rows := s.rows[id := row]), j)
  {
    var rows := s.rows[id := row];
    if Shared(s.rows, j.id, j.location) {
      var o :| o in s.rows && o != j.id && s.rows[o].location == j.location && s.rows[o].state != Deleted;
      assert rows[o] == s.rows[o];
    }
  }

  /** Marking the row of the job that holds the lock leaves the other jobs alone. */
  lemma MarkKeepsOthers(s: State, w: nat, state: ObjectState)
    requires LocksAgree(s) && JobsAgree(s) && w in s.jobs
    requires s.jobs[w].id in s.rows ==> s.rows[s.jobs[w].id].location == s.jobs[w].location
    ensures forall v :: v in s.jobs && v != w ==> JobAgrees(Mark(s, s.jobs[w].id, state), s.jobs[v])
  {
    var id := s.jobs[w].id;
    if id in s.rows {
      forall v | v in s.jobs && v != w
        ensures JobAgrees(Mark(s, id, state), s.jobs[v])
      {
        assert s.jobs[v].location != s.jobs[w].location;
        OtherLocation(s, id, s.rows[id].(state := state), s.jobs[v]);
      }
    }
  }

  lemma MarkKeepsRows(s: State, id: nat, state: ObjectState)
    requires ReferencesAgree(s) && SweptAgrees(s)
    requires id in s.rows ==> state == Available || s.rows[id].references == 0
    requires id in s.rows && state == Deleted ==>
               s.rows[id].location !in s.unswept || Shared(s.rows, id, s.rows[id].location)
    ensures ReferencesAgree(Mark(s, id, state)) && SweptAgrees(Mark(s, id, state))
  {
    var t := Mark(s, id, state);
    forall location | location in t.unswept
      ensures Named(t.rows, location)
    {
      assert Named(s.rows, location);
      if id in s.rows && s.rows[id].location == location && state == Deleted {
        var o :| o in s.rows && o != id && s.rows[o].location == location && s.rows[o].state != Deleted;
        assert t.rows[o] == s.rows[o];
      } else {
        var o :| o in s.rows && s.rows[o].location == location && s.rows[o].state != Deleted;
        assert t.rows[o].location == location;
        assert o != id ==> t.rows[o] == s.rows[o];
        assert o == id ==> t.rows[o].state != Deleted;
      }
    }
  }

  lemma ReleaseKeeps(s: State, w: nat)
    requires LocksAgree(s) && w in s.jobs && ReferencesAgree(s) && SweptAgrees(s)
    requires forall v :: v in s.jobs && v != w ==> JobAgrees(s, s.jobs[v])
    ensures Inv(Release(s, w))
  {
    assert forall v :: v in s.jobs && v != w ==> s.jobs[v].location != s.jobs[w].location;
    assert forall v :: v in Release(s, w).jobs ==> JobAgrees(Release(s, w), s.jobs[v]);
  }

  lemma StageKeeps(s: State, w: nat, stage: Stage)
    requires LocksAgree(s) && w in s.jobs && ReferencesAgree(s) && SweptAgrees(s)
    requires forall v :: v in s.jobs && v != w ==> JobAgrees(s, s.jobs[v])
    requires JobAgrees(s, s.jobs[w].(stage := stage))
    ensures Inv(ToStage(s, w, stage))
  {
    assert forall v :: v in s.jobs && v != w ==> JobAgrees(ToStage(s, w, stage), s.jobs[v]);
  }

  /** The decision to erase: the row is marked and nobody else names the location. */
  lemma ErasingKeeps(s: State, w: nat)
    requires Inv(s) && w in s.jobs && !Shared(s.rows, s.jobs[w].id, s.jobs[w].location)
    requires s.jobs[w].id in s.rows ==>
               s.rows[s.jobs[w].id].location == s.jobs[w].location && s.rows[s.jobs[w].id].references == 0
    ensures Inv(ToStage(Mark(s, s.jobs[w].id, Deleting), w, ToErase(true, false)))
  {
    var id, location := s.jobs[w].id, s.jobs[w].location;
    var t := Mark(s, id, Deleting);
    MarkKeepsOthers(s, w, Deleting);
    MarkKeepsRows(s, id, Deleting);
    assert forall o :: o in t.rows && o != id ==> t.rows[o] == s.rows[o];
    StageKeeps(t, w, ToErase(true, false));
  }

  /** The decision that another row keeps the bytes. */
  lemma SharedKeeps(s: State, w: nat)
    requires Inv(s) && w in s.jobs && Shared(s.rows, s.jobs[w].id, s.jobs[w].location)
    requires s.jobs[w].id in s.rows ==>
               s.rows[s.jobs[w].id].location == s.jobs[w].location && s.rows[s.jobs[w].id].references == 0
    ensures Inv(Release(Mark(s, s.jobs[w].id, Deleted), w))
  {
    MarkKeepsOthers(s, w, Deleted);
    MarkKeepsRows(s, s.jobs[w].id, Deleted);
    ReleaseKeeps(Mark(s, s.jobs[w].id, Deleted), w);
  }

  lemma DecideKeeps(s: State, w: nat, owned: bool)
    requires Inv(s) && w in s.jobs && s.jobs[w].stage == Started
    ensures Inv(Next(s, Decide(w, owned)))
  {
    var j := s.jobs[w];
    assert JobAgrees(s, j);
    ReleaseKeeps(s, w);
    if j.id in s.rows && (s.rows[j.id].location != j.location || s.rows[j.id].references > 0) {
      // Nothing but a release is possible.
    } else if Shared(s.rows, j.id, j.location) {
      SharedKeeps(s, w);
    } else {
      ErasingKeeps(s, w);
    }
    if j.id in s.rows && s.rows[j.id].location == j.location && s.rows[j.id].state == Deleting {
      assert s.rows[j.id].references == 0;
      if j.kind == Allocation {
        StageKeeps(s, w, ToErase(false, Shared(s.rows, j.id, j.location)));
      }
      if !Shared(s.rows, j.id, j.location) {
        StageKeeps(s, w, ToErase(true, false));
      }
    }
  }

  lemma EraseKeeps(s: State, w: nat)
    requires Inv(s) && w in s.jobs && s.jobs[w].stage.ToErase?
    ensures Inv(Next(s, Erase(w)))
  {
    var t := Next(s, Erase(w));
    forall v | v in t.jobs
      ensures JobAgrees(t, t.jobs[v])
    {
      assert JobAgrees(s, s.jobs[v]);
    }
  }

  lemma RecordKeeps(s: State, w: nat)
    requires Inv(s) && w in s.jobs && s.jobs[w].stage.ToRecord?
    ensures Inv(Next(s, Record(w)))
  {
    var j := s.jobs[w];
    assert JobAgrees(s, j);
    if j.id in s.rows && s.rows[j.id].location == j.location && s.rows[j.id].state == Deleting {
      MarkKeepsOthers(s, w, Deleted);
      MarkKeepsRows(s, j.id, Deleted);
      ReleaseKeeps(Mark(s, j.id, Deleted), w);
    } else {
      ReleaseKeeps(s, w);
    }
  }

  /** Registration needs the location lock, so no job at the location sees a new row. */
  lemma RegisterKeeps(s: State, id: nat, location: nat)
    requires Inv(s) && location !in s.locks && id !in s.rows
    ensures Inv(AddRow(s, id, location))
  {
    var t := AddRow(s, id, location);
    forall w | w in t.jobs
      ensures JobAgrees(t, t.jobs[w])
    {
      var j := s.jobs[w];
      assert JobAgrees(s, j) && j.location != location;
      if Shared(s.rows, j.id, j.location) {
        var o :| o in s.rows && o != j.id && s.rows[o].location == j.location && s.rows[o].state != Deleted;
        assert t.rows[o] == s.rows[o];
      }
    }
    forall l | l in t.unswept
      ensures Named(t.rows, l)
    {
      if l == location {
        assert t.rows[id].location == l;
      } else {
        var o :| o in s.rows && s.rows[o].location == l && s.rows[o].state != Deleted;
        assert t.rows[o] == s.rows[o];
      }
    }
  }

  lemma StoringKeeps(s: State, t: State)
    requires Inv(s) && t == s.(stored := t.stored, exports := t.exports)
    ensures Inv(t)
  {
    assert forall w :: w in s.jobs ==> JobAgrees(t, s.jobs[w]);
  }

  lemma CountKeeps(s: State, id: nat, references: nat)
    requires Inv(s) && id in s.rows && (s.rows[id].state == Available || references == 0)
    ensures Inv(s.(rows := s.rows[id := s.rows[id].(references := references)]))
  {
    var t := s.(rows := s.rows[id := s.rows[id].(references := references)]);
    assert forall o :: o in s.rows ==> t.rows[o].location == s.rows[o].location && t.rows[o].state == s.rows[o].state;
    forall w | w in t.jobs
      ensures JobAgrees(t, t.jobs[w])
    {
      assert JobAgrees(s, s.jobs[w]);
      SameStates(s.rows, t.rows, s.jobs[w].id, s.jobs[w].location);
    }
    forall l | l in t.unswept
      ensures Named(t.rows, l)
    {
      var o :| o in s.rows && s.rows[o].location == l && s.rows[o].state != Deleted;
      assert t.rows[o].location == l;
    }
  }

  lemma SameStates(r: map<nat, Row>, q: map<nat, Row>, id: nat, location: nat)
    requires r.Keys == q.Keys && forall o :: o in r ==> q[o].location == r[o].location && q[o].state == r[o].state
    ensures Shared(r, id, location) == Shared(q, id, location)
  {
    if Shared(r, id, location) {
      var o :| o in r && o != id && r[o].location == location && r[o].state != Deleted;
      assert q[o].location == location;
    }
  }

  lemma NextKeeps(s: State, e: Event)
    requires Inv(s)
    ensures Inv(Next(s, e))
  {
    match e
    case Publish(id, location, registers) =>
      var put := s.(stored := s.stored + {location});
      StoringKeeps(s, put);
      if location !in s.locks && id !in s.rows {
        RegisterKeeps(put, id, location);
      }
    case Put(id, location) => StoringKeeps(s, Next(s, e));
    case Register(id) =>
      if id in s.exports && s.exports[id] !in s.locks && id !in s.rows {
        RegisterKeeps(s, id, s.exports[id]);
      }
    case AddReference(id) =>
      if id in s.rows && s.rows[id].state == Available {
        CountKeeps(s, id, s.rows[id].references + 1);
      }
    case DropReference(id) =>
      if id in s.rows && s.rows[id].references > 0 {
        CountKeeps(s, id, s.rows[id].references - 1);
      }
    case Start(w, kind, id, location) =>
      assert forall v :: v in s.jobs ==> JobAgrees(Next(s, e), s.jobs[v]);
    case Decide(w, owned) =>
      if w in s.jobs && s.jobs[w].stage == Started {
        DecideKeeps(s, w, owned);
      }
    case Erase(w) =>
      if w in s.jobs && s.jobs[w].stage.ToErase? {
        EraseKeeps(s, w);
      }
    case Record(w) =>
      if w in s.jobs && s.jobs[w].stage.ToRecord? {
        RecordKeeps(s, w);
      }
    case Stop(w) =>
      if w in s.jobs {
        ReleaseKeeps(s, w);
      }
  }

  // ---- Theorems ----

  lemma {:induction false} Reachable(events: seq<Event>)
    ensures Inv(After(events))
  {
    if events != [] {
      Reachable(events[..|events| - 1]);
      NextKeeps(After(events[..|events| - 1]), events[|events| - 1]);
    }
  }

  /** An erasure takes bytes that another undeleted row names, exactly when the location
      was shared already when the reclaim made its decision. */
  lemma EraseIsExact(events: seq<Event>, w: nat)
    requires w in After(events).jobs && After(events).jobs[w].stage.ToErase?
    ensures var s := After(events); var j := s.jobs[w];
      Shared(s.rows, j.id, j.location) <==> j.stage.shared
  {
    Reachable(events);
    assert JobAgrees(After(events), After(events).jobs[w]);
  }

  /** The decision goes on to erase bytes that another undeleted row names, exactly if it is
      about an allocation of an operation still owned, finds the row deleting, and the
      location shared; there the shared-location query is skipped. */
  lemma DecisionExposesExactly(s: State, w: nat, owned: bool)
    requires w in s.jobs && s.jobs[w].stage == Started
    ensures var t := Next(s, Decide(w, owned)); var j := s.jobs[w];
      w in t.jobs && t.jobs[w].stage.ToErase? && Shared(t.rows, j.id, j.location) <==>
        && j.kind == Allocation && owned && j.id in s.rows && s.rows[j.id].state == Deleting
        && Shared(s.rows, j.id, j.location)
  {
    var j := s.jobs[w];
    MarkSharesAlike(s, j.id, Deleting, j.location);
  }

  lemma MarkSharesAlike(s: State, id: nat, state: ObjectState, location: nat)
    ensures Shared(Mark(s, id, state).rows, id, location) <==> Shared(s.rows, id, location)
  {
    var t := Mark(s, id, state);
    assert forall o :: o != id ==> (o in t.rows <==> o in s.rows) && (o in s.rows ==> t.rows[o] == s.rows[o]);
  }

  /** Reclaiming an archive, recovering a deleting row, and reclaiming an allocation whose
      row was available never erase bytes that another undeleted row names. */
  lemma CheckedEraseIsSafe(events: seq<Event>, w: nat)
    requires w in After(events).jobs && After(events).jobs[w].stage.ToErase?
    requires After(events).jobs[w].kind != Allocation || After(events).jobs[w].stage.checked
    ensures var s := After(events); !Shared(s.rows, s.jobs[w].id, s.jobs[w].location)
  {
    Reachable(events);
    assert JobAgrees(After(events), After(events).jobs[w]);
  }

  /** An object with a reference is neither being deleted nor deleted. */
  lemma ReferencedStays(events: seq<Event>, id: nat)
    requires id in After(events).rows && After(events).rows[id].references > 0
    ensures After(events).rows[id].state == Available
  {
    Reachable(events);
  }

  /** When the rows at a location are all deleted, its bytes have been erased since the last
      of them was registered. */
  lemma LastRowErases(events: seq<Event>, location: nat)
    requires forall id :: id in After(events).rows && After(events).rows[id].location == location ==>
                            After(events).rows[id].state == Deleted
    ensures location !in After(events).unswept
  {
    Reachable(events);
  }

  // ---- What an undisturbed reclaim does ----

  /** A worker reclaims an object from beginning to end. */
  function Reclaim(s: State, w: nat, kind: Kind, id: nat, location: nat, owned: bool): State {
    Next(Next(Next(Next(s, Start(w, kind, id, location)), Decide(w, owned)), Erase(w)), Record(w))
  }

  ghost predicate Free(s: State, w: nat, location: nat) {
    Inv(s) && w !in s.jobs && location !in s.locks
  }

  function Working(s: State, w: nat, j: Job): State {
    s.(jobs := s.jobs[w := j], locks := s.locks[j.location := w])
  }

  /** The row, if there is one, is deleted. */
  function RowDeleted(rows: map<nat, Row>, id: nat): map<nat, Row> {
    if id in rows then rows[id := rows[id].(state := Deleted)] else rows
  }

  function BytesErased(s: State, location: nat): State {
    s.(stored := s.stored - {location}, unswept := s.unswept - {location})
  }

  lemma ReleaseEnds(s: State, rows: map<nat, Row>, w: nat, j: Job)
    requires w !in s.jobs && j.location !in s.locks
    ensures Release(Working(s, w, j).(rows := rows), w) == s.(rows := rows)
  {
    assert s.jobs[w := j] - {w} == s.jobs && s.locks[j.location := w] - {j.location} == s.locks;
  }

  /** A reclaim that ends with its decision. */
  lemma DecidedAgainst(s: State, w: nat, kind: Kind, id: nat, location: nat, owned: bool, rows: map<nat, Row>)
    requires Free(s, w, location) && (kind != Archive ==> id in s.rows && s.rows[id].location == location)
    requires var started := Working(s, w, Job(kind, id, location, Started));
      Next(started, Decide(w, owned)) == Release(started.(rows := rows), w)
    ensures Reclaim(s, w, kind, id, location, owned) == s.(rows := rows)
  {
    ReleaseEnds(s, rows, w, Job(kind, id, location, Started));
  }

  /** A reclaim that goes on to erase. */
  lemma DecidedFor(s: State, w: nat, kind: Kind, id: nat, location: nat, owned: bool,
                   rows: map<nat, Row>, stage: Stage)
    requires Free(s, w, location) && (kind != Archive ==> id in s.rows && s.rows[id].location == location)
    requires id in s.rows ==> s.rows[id].location == location
    requires stage.ToErase? && rows == if id in s.rows then s.rows[id := s.rows[id].(state := Deleting)] else s.rows
    requires Next(Working(s, w, Job(kind, id, location, Started)), Decide(w, owned)) ==
               Working(s, w, Job(kind, id, location, stage)).(rows := rows)
    ensures Reclaim(s, w, kind, id, location, owned) == BytesErased(s, location).(rows := RowDeleted(s.rows, id))
  {
    var j := Job(kind, id, location, ToRecord);
    var erasing := Working(s, w, Job(kind, id, location, stage)).(rows := rows);
    var erased := Working(BytesErased(s, location), w, j).(rows := rows);
    assert Next(erasing, Erase(w)) == erased;
    ReleaseEnds(BytesErased(s, location), RowDeleted(s.rows, id), w, j);
    assert Next(erased, Record(w)) == Release(erased.(rows := RowDeleted(s.rows, id)), w);
  }

  /** Recovering a row left deleting always deletes it, and erases its bytes exactly if no
      other row that is not deleted names their location. */
  lemma RecoveryReclaims(s: State, w: nat, id: nat)
    requires id in s.rows && Free(s, w, s.rows[id].location) && s.rows[id].state == Deleting
    ensures var location := s.rows[id].location;
      var t := Reclaim(s, w, Recovery, id, location, true);
      && t.rows == s.rows[id := s.rows[id].(state := Deleted)] && t.locks == s.locks && t.jobs == s.jobs
      && t.stored == if exists o :: o in s.rows && o != id && s.rows[o].location == location
                                    && (s.rows[o].state == Available || s.rows[o].state == Deleting)
                     then s.stored else s.stored - {location}
  {
    var location := s.rows[id].location;
    assert s.rows[id := s.rows[id].(state := Deleting)] == s.rows;
    if Shared(s.rows, id, location) {
      DecidedAgainst(s, w, Recovery, id, location, true, RowDeleted(s.rows, id));
    } else {
      DecidedFor(s, w, Recovery, id, location, true, s.rows, ToErase(true, false));
    }
  }

  /** A row that is not deleting is none of the recovery's business. */
  lemma RecoveryLeaves(s: State, w: nat, id: nat)
    requires id in s.rows && Free(s, w, s.rows[id].location) && s.rows[id].state != Deleting
    ensures Reclaim(s, w, Recovery, id, s.rows[id].location, true) == s
  {
    DecidedAgainst(s, w, Recovery, id, s.rows[id].location, true, s.rows);
  }

  /** Reclaiming an allocation deletes an available row without a reference, and erases its
      bytes exactly if no other row that is not deleted names their location. */
  lemma AllocationReclaims(s: State, w: nat, id: nat)
    requires id in s.rows && Free(s, w, s.rows[id].location)
    requires s.rows[id].state == Available && s.rows[id].references == 0
    ensures var location := s.rows[id].location;
      var t := Reclaim(s, w, Allocation, id, location, true);
      && t.rows == s.rows[id := s.rows[id].(state := Deleted)] && t.locks == s.locks && t.jobs == s.jobs
      && t.stored == if exists o :: o in s.rows && o != id && s.rows[o].location == location
                                    && (s.rows[o].state == Available || s.rows[o].state == Deleting)
                     then s.stored else s.stored - {location}
  {
    var location := s.rows[id].location;
    if Shared(s.rows, id, location) {
      DecidedAgainst(s, w, Allocation, id, location, true, RowDeleted(s.rows, id));
    } else {
      DecidedFor(s, w, Allocation, id, location, true, s.rows[id := s.rows[id].(state := Deleting)],
                 ToErase(true, false));
    }
  }

  /** Resumed on a row left deleting, it deletes the row and erases the bytes in any case. */
  lemma AllocationResumes(s: State, w: nat, id: nat)
    requires id in s.rows && Free(s, w, s.rows[id].location) && s.rows[id].state == Deleting
    ensures var location := s.rows[id].location;
      var t := Reclaim(s, w, Allocation, id, location, true);
      && t.rows == s.rows[id := s.rows[id].(state := Deleted)] && t.locks == s.locks && t.jobs == s.jobs
      && t.stored == s.stored - {location}
  {
    var location := s.rows[id].location;
    assert s.rows[id := s.rows[id].(state := Deleting)] == s.rows;
    DecidedFor(s, w, Allocation, id, location, true, s.rows, ToErase(false, Shared(s.rows, id, location)));
  }

  /** It leaves everything as it is when the operation is no longer owned, the row is deleted
      already, or the object is referenced. */
  lemma AllocationLeaves(s: State, w: nat, id: nat, owned: bool)
    requires id in s.rows && Free(s, w, s.rows[id].location)
    requires !owned || s.rows[id].state == Deleted || s.rows[id].references > 0
    ensures Reclaim(s, w, Allocation, id, s.rows[id].location, owned) == s
  {
    DecidedAgainst(s, w, Allocation, id, s.rows[id].location, owned, s.rows);
  }

  /** Reclaiming an archive, which may have no row, deletes an unreferenced row at the
      location, and erases the bytes exactly if no other row that is not deleted names their
      location. */
  lemma ArchiveReclaims(s: State, w: nat, id: nat, location: nat)
    requires Free(s, w, location)
    requires id in s.rows ==>
               s.rows[id].location == location && s.rows[id].state != Deleted && s.rows[id].references == 0
    ensures var t := Reclaim(s, w, Archive, id, location, true);
      && t.rows == (if id in s.rows then s.rows[id := s.rows[id].(state := Deleted)] else s.rows)
      && t.locks == s.locks && t.jobs == s.jobs
      && t.stored == if exists o :: o in s.rows && o != id && s.rows[o].location == location
                                    && (s.rows[o].state == Available || s.rows[o].state == Deleting)
                     then s.stored else s.stored - {location}
  {
    if Shared(s.rows, id, location) {
      DecidedAgainst(s, w, Archive, id, location, true, RowDeleted(s.rows, id));
    } else {
      DecidedFor(s, w, Archive, id, location, true, Mark(s, id, Deleting).rows, ToErase(true, false));
    }
  }

  /** It leaves everything as it is when the row is elsewhere, deleted already, or
      referenced. */
  lemma ArchiveLeaves(s: State, w: nat, id: nat, location: nat)
    requires Free(s, w, location) && id in s.rows
    requires s.rows[id].location != location || s.rows[id].state == Deleted || s.rows[id].references > 0
    ensures Reclaim(s, w, Archive, id, location, true) == s
  {
    DecidedAgainst(s, w, Archive, id, location, true, s.rows);
  }

  // ---- What is referenced stays ----

  /** A new object is available with its bytes, and can be referenced at once. */
  lemma PublishedIsReferenced(s: State, id: nat, location: nat)
    requires id !in s.rows && location !in s.locks
    ensures var t := Next(Next(s, Publish(id, location, true)), AddReference(id));
      && id in t.rows && t.rows[id] == Row(location, Available, 1) && location in t.stored
      && (forall o :: o in s.rows ==> o in t.rows && t.rows[o] == s.rows[o])
  {
  }

  lemma ReferenceStays(s: State, e: Event, id: nat)
    requires Inv(s) && id in s.rows && s.rows[id].references > 0 && e != DropReference(id)
    ensures var t := Next(s, e);
      id in t.rows && t.rows[id].references >= s.rows[id].references && t.rows[id].location == s.rows[id].location
  {
    assert s.rows[id].state == Available;
    if e.Decide? && e.worker in s.jobs {
      assert JobAgrees(s, s.jobs[e.worker]);
    }
  }

  function Then(s: State, events: seq<Event>): State
    decreases |events|
  {
    if events == [] then s else Then(Next(s, events[0]), events[1..])
  }

  /** Whatever is published and reclaimed meanwhile, an object keeps its place and stays
      available as long as its references are not dropped. */
  lemma {:induction false} ReferencedSurvives(s: State, events: seq<Event>, id: nat)
    requires Inv(s) && id in s.rows && s.rows[id].references > 0 && DropReference(id) !in events
    ensures var t := Then(s, events);
      && id in t.rows && t.rows[id].state == Available && t.rows[id].location == s.rows[id].location
      && t.rows[id].references >= s.rows[id].references
    decreases |events|
  {
    if events != [] {
      NextKeeps(s, events[0]);
      ReferenceStays(s, events[0], id);
      ReferencedSurvives(Next(s, events[0]), events[1..], id);
    }
  }

  /** Once its last reference is dropped, an object can be reclaimed. */
  lemma UnreferencedIsReclaimed(s: State, w: nat, id: nat)
    requires id in s.rows && Free(s, w, s.rows[id].location)
    requires s.rows[id].state == Available && s.rows[id].references == 1
    ensures var t := Reclaim(Next(s, DropReference(id)), w, Allocation, id, s.rows[id].location, true);
      id in t.rows && t.rows[id].state == Deleted
    ensures Reclaim(s, w, Allocation, id, s.rows[id].location, true) == s
  {
    NextKeeps(s, DropReference(id));
    AllocationReclaims(Next(s, DropReference(id)), w, id);
    AllocationLeaves(s, w, id, true);
  }

  // ---- Where the bytes are ----

  predicate Stores(s: State, e: Event, location: nat) {
    || (e.Publish? && e.location == location && location !in s.locks)
    || (e.Put? && e.location == location)
  }

  predicate Erases(s: State, e: Event, location: nat) {
    && e.Erase? && e.worker in s.jobs && s.jobs[e.worker].stage.ToErase?
    && s.jobs[e.worker].location == location
  }

  /** The erasure of a resumed allocation reclaim, which skipped the shared-location query,
      of a shared location. */
  predicate ErasesShared(s: State, e: Event, location: nat)
    requires Erases(s, e, location)
  {
    var j := s.jobs[e.worker];
    j.kind == Allocation && !j.stage.checked && Shared(s.rows, j.id, location)
  }

  /** An export registers the row of bytes that were erased since it put them there. */
  predicate RegistersErased(s: State, e: Event, location: nat) {
    && e.Register? && e.id in s.exports && e.id !in s.rows
    && s.exports[e.id] == location && location !in s.locks && location !in s.stored
  }

  /** The run took the bytes at the location from an available row, or gave the location
      such a row without them, and nothing has been stored there since. */
  predicate Lost(events: seq<Event>, location: nat) {
    events != [] &&
    var before := events[..|events| - 1];
    var s, e := After(before), events[|events| - 1];
    if Stores(s, e, location) then false
    else if Erases(s, e, location) then ErasesShared(s, e, location)
    else RegistersErased(s, e, location) || Lost(before, location)
  }

  predicate AvailableAt(rows: map<nat, Row>, location: nat) {
    exists o :: o in rows && rows[o].location == location && rows[o].state == Available
  }

  lemma DecisionAddsNone(s: State, w: nat, owned: bool, o: nat)
    requires o in Next(s, Decide(w, owned)).rows && Next(s, Decide(w, owned)).rows[o].state == Available
    ensures o in s.rows && s.rows[o] == Next(s, Decide(w, owned)).rows[o]
  {
  }

  /** No decision, record or count makes a row available. */
  lemma OnlyRegistrationAdds(s: State, e: Event, location: nat)
    requires AvailableAt(Next(s, e).rows, location) && !Stores(s, e, location)
    ensures || AvailableAt(s.rows, location) || RegistersErased(s, e, location)
            || (location in s.stored && Next(s, e).stored == s.stored)
  {
    var t := Next(s, e);
    var o :| o in t.rows && t.rows[o].location == location && t.rows[o].state == Available;
    if e.Decide? {
      DecisionAddsNone(s, e.worker, e.owned, o);
    } else if !e.Register? {
      assert o in s.rows && s.rows[o].location == location && s.rows[o].state == Available;
    }
  }

  /** Only an erasure takes bytes away. */
  lemma BytesStay(s: State, e: Event, location: nat)
    requires !Stores(s, e, location) && !Erases(s, e, location)
    ensures location in Next(s, e).stored <==> location in s.stored
  {
  }

  /** An erasure that is not of a resumed allocation finds no available row at the location. */
  lemma ErasureExposes(s: State, e: Event, location: nat)
    requires Inv(s) && Erases(s, e, location) && AvailableAt(s.rows, location)
    ensures ErasesShared(s, e, location)
  {
    var j := s.jobs[e.worker];
    assert JobAgrees(s, j);
    var o :| o in s.rows && s.rows[o].location == location && s.rows[o].state == Available;
    assert o != j.id;
  }

  lemma {:induction false} BytesAgree(events: seq<Event>, location: nat)
    ensures Lost(events, location) ==> location !in After(events).stored
    ensures AvailableAt(After(events).rows, location) ==>
              location in After(events).stored || Lost(events, location)
  {
    if events != [] {
      var before := events[..|events| - 1];
      var s, e := After(before), events[|events| - 1];
      BytesAgree(before, location);
      Reachable(before);
      if Stores(s, e, location) {
        assert location in Next(s, e).stored;
      } else {
        if AvailableAt(Next(s, e).rows, location) {
          OnlyRegistrationAdds(s, e, location);
        }
        if Erases(s, e, location) {
          assert Next(s, e).stored == s.stored - {location} && Next(s, e).rows == s.rows;
          if AvailableAt(s.rows, location) {
            ErasureExposes(s, e, location);
          }
        } else {
          BytesStay(s, e, location);
        }
      }
    }
  }

  /** The bytes of an available object are stored, unless a resumed allocation reclaim
      erased them while they were shared, or an export registered them after they were
      erased, and nothing was stored there since. */
  lemma AvailableIsStored(events: seq<Event>, id: nat)
    requires id in After(events).rows && After(events).rows[id].state == Available
    ensures var location := After(events).rows[id].location;
      location in After(events).stored <==> !Lost(events, location)
  {
    BytesAgree(events, After(events).rows[id].location);
  }

  // ---- An allocation resumed on a row left deleting ----

  lemma Continue(events: seq<Event>, s: State, e: Event) returns (longer: seq<Event>)
    requires After(events) == s
    ensures After(longer) == Next(s, e)
  {
    longer := events + [e];
    assert longer[..|longer| - 1] == events;
  }

  /** A reclaim of object 1 stopped after marking it, and object 2 was then stored at the
      same location. */
  function HalfReclaimed(): State {
    State(map[1 := Row(0, Deleting, 0), 2 := Row(0, Available, 0)], {0}, {0}, map[], map[], map[])
  }

  function Single(state: ObjectState): State {
    State(map[1 := Row(0, state, 0)], {0}, {0}, map[], map[], map[])
  }

  function Busy(s: State, stage: Stage): State {
    s.(locks := map[0 := 9], jobs := map[9 := Job(Allocation, 1, 0, stage)])
  }

  lemma FirstStarts() returns (events: seq<Event>)
    ensures After(events) == Busy(Single(Available), Started)
  {
    events := Continue([], Init(), Publish(1, 0, true));
    assert Next(Init(), Publish(1, 0, true)) == Single(Available);
    events := Continue(events, Single(Available), Start(9, Allocation, 1, 0));
    assert Next(Single(Available), Start(9, Allocation, 1, 0)) == Busy(Single(Available), Started);
  }

  lemma FirstMarks()
    ensures Next(Busy(Single(Available), Started), Decide(9, true)) ==
              Busy(Single(Deleting), ToErase(true, false))
  {
    var s := Busy(Single(Available), Started);
    assert !Shared(s.rows, 1, 0);
    assert Mark(s, 1, Deleting) == Busy(Single(Deleting), Started);
  }

  lemma MarkedAndStopped() returns (events: seq<Event>)
    ensures After(events) == Single(Deleting)
  {
    events := FirstStarts();
    events := Continue(events, Busy(Single(Available), Started), Decide(9, true));
    FirstMarks();
    var marked := Busy(Single(Deleting), ToErase(true, false));
    events := Continue(events, marked, Stop(9));
    assert marked.jobs - {9} == map[] && marked.locks - {0} == map[];
  }

  lemma ReclaimStops() returns (events: seq<Event>)
    ensures After(events) == HalfReclaimed()
  {
    events := MarkedAndStopped();
    events := Continue(events, Single(Deleting), Publish(2, 0, true));
    assert Next(Single(Deleting), Publish(2, 0, true)) == HalfReclaimed();
  }

  /** Resuming the reclaim skips the shared-location query and erases object 2's bytes. */
  lemma ResumedAllocationErasesShared() returns (events: seq<Event>)
    ensures var s := After(events); 2 in s.rows && s.rows[2] == Row(0, Available, 0) && 0 !in s.stored
  {
    events := ReclaimStops();
    var s := HalfReclaimed();
    events := Continue(events, s, Start(9, Allocation, 1, 0));
    var started := s.(locks := map[0 := 9], jobs := map[9 := Job(Allocation, 1, 0, Started)]);
    events := Continue(events, started, Decide(9, true));
    assert s.rows[2].location == 0;
    var deciding := started.(jobs := map[9 := Job(Allocation, 1, 0, ToErase(false, true))]);
    assert Next(started, Decide(9, true)) == deciding;
    events := Continue(events, deciding, Erase(9));
  }

  // ---- An export whose bytes are erased before it registers them ----

  /** Another export put the same bytes, after the reclaim of object 1 had decided. */
  function PutMeanwhile(state: ObjectState, stored: set<nat>): State {
    State(map[1 := Row(0, state, 0)], stored, stored, map[2 := 0], map[], map[])
  }

  lemma PutAfterDecision() returns (events: seq<Event>)
    ensures After(events) == Busy(PutMeanwhile(Deleting, {0}), ToErase(true, false))
  {
    events := FirstStarts();
    events := Continue(events, Busy(Single(Available), Started), Decide(9, true));
    FirstMarks();
    events := Continue(events, Busy(Single(Deleting), ToErase(true, false)), Put(2, 0));
  }

  lemma EraseStep()
    ensures Next(Busy(PutMeanwhile(Deleting, {0}), ToErase(true, false)), Erase(9)) ==
              Busy(PutMeanwhile(Deleting, {}), ToRecord)
  {
  }

  lemma RecordStep()
    ensures Next(Busy(PutMeanwhile(Deleting, {}), ToRecord), Record(9)) == PutMeanwhile(Deleted, {})
  {
    var s := Busy(PutMeanwhile(Deleting, {}), ToRecord);
    assert s.jobs - {9} == map[] && s.locks - {0} == map[];
  }

  lemma ErasedMeanwhile() returns (events: seq<Event>)
    ensures After(events) == PutMeanwhile(Deleted, {})
  {
    events := PutAfterDecision();
    events := Continue(events, Busy(PutMeanwhile(Deleting, {0}), ToErase(true, false)), Erase(9));
    EraseStep();
    events := Continue(events, Busy(PutMeanwhile(Deleting, {}), ToRecord), Record(9));
    RecordStep();
  }

  /** The export then registers an available object without bytes. */
  lemma ExportRegistersErased() returns (events: seq<Event>)
    ensures var s := After(events); 2 in s.rows && s.rows[2] == Row(0, Available, 0) && 0 !in s.stored
  {
    events := ErasedMeanwhile();
    events := Continue(events, PutMeanwhile(Deleted, {}), Register(2));
  }
}
