/** The interaction ledger's row transitions and the per-connection tracker that journals
    requests, follows processes and takes over the processes of a resumed session. */
module InteractionTracker {
  import opened Interactions
  import opened Wrappers

  datatype Identity = Identity(id: string, generation: nat, session: string, kind: Kind)

  datatype Row = Row(identity: Identity, state: RowState)

  type Rows = map<string, Row>

  predicate Keyed(rows: Rows) {
    forall id :: id in rows ==> rows[id].identity.id == id
  }

  predicate Unfinished(row: Row, session: string) {
    row.identity.session == session && row.state != Finished
  }

  predicate OpenProcess(row: Row, session: string) {
    Unfinished(row, session) && row.identity.kind.Process?
  }

  predicate OpenFile(row: Row, session: string) {
    Unfinished(row, session) && row.identity.kind.Filesystem?
  }

  /** Whether a row lets a transition through; a finished row admits only finishing again. */
  predicate Admits(rows: Rows, identity: Identity, state: RowState) {
    && identity.id in rows && rows[identity.id].identity == identity
    && (rows[identity.id].state == Finished ==> state == Finished)
  }

  function Set(rows: Rows, id: string, state: RowState): Rows
    requires id in rows
  {
    rows[id := rows[id].(state := state)]
  }

  /** The ledger for one lease, with the lease row that guards admission. */
  class InteractionLedger {
    var rows: Rows
    var active: bool
    var generation: nat

    constructor (generation: nat)
      ensures rows == map[] && active && this.generation == generation
    {
      rows, active := map[], true;
      this.generation := generation;
    }

    /** The partial unique index: one unfinished row for a process of a session. */
    predicate Taken(identity: Identity)
      reads this
    {
      exists id :: id in rows && rows[id].state != Finished && rows[id].identity.kind.Process?
                   && rows[id].identity.(id := identity.id) == identity
    }

    method Begin(identity: Identity) returns (ok: bool)
      requires Keyed(rows)
      modifies this`rows
      ensures Keyed(rows)
      ensures ok <==> active && identity.generation == generation
                      && (if identity.id in old(rows) then old(rows)[identity.id] == Row(identity, Active)
                          else identity.kind.Process? ==>
                            !exists o :: o in old(rows) && old(rows)[o].identity == identity.(id := o)
                                         && (old(rows)[o].state == Active || old(rows)[o].state == RowState.Detached))
      ensures identity.id !in old(rows) && ok ==> !old(Taken(identity))
      ensures rows == if ok then old(rows)[identity.id := Row(identity, Active)] else old(rows)
    {
      if !active || identity.generation != generation { return false; }
      if identity.id in rows { return rows[identity.id] == Row(identity, Active); }
      if Taken(identity) { return false; }
      rows := rows[identity.id := Row(identity, Active)];
      ok := true;
    }

    method Transition(identity: Identity, state: RowState) returns (ok: bool)
      requires Keyed(rows)
      modifies this`rows
      ensures Keyed(rows)
      ensures ok <==> Admits(old(rows), identity, state)
      ensures rows == if ok then Set(old(rows), identity.id, state) else old(rows)
    {
      if identity.id !in rows || rows[identity.id].identity != identity { return false; }
      var current := rows[identity.id].state;
      if current == Finished {
        assert state == Finished ==> Set(rows, identity.id, state) == rows;
        return state == Finished;
      }
      if current != state {
        rows := Set(rows, identity.id, state);
      } else {
        assert Set(rows, identity.id, state) == rows;
      }
      ok := true;
    }

    method Reattach(identity: Identity, current: nat) returns (ok: bool)
      requires Keyed(rows)
      modifies this`rows
      ensures Keyed(rows)
      ensures ok <==> active && current == generation && Admits(old(rows), identity, Active)
      ensures rows == if ok then Set(old(rows), identity.id, Active) else old(rows)
    {
      if !active || current != generation { return false; }
      ok := Transition(identity, Active);
    }

    /** The unfinished interactions of a session, of one kind. */
    method List(session: string, processes: bool, current: nat) returns (r: Option<seq<Identity>>)
      requires Keyed(rows)
      ensures r.Some? <==> active && current == generation
      ensures r.Some? ==> Lists(r.value, rows, session, processes)
      ensures r.Some? ==> forall id :: id in rows ==>
        (rows[id].identity in r.value <==>
           && rows[id].identity.session == session && rows[id].identity.kind.Process? == processes
           && (rows[id].state == Active || rows[id].state == RowState.Detached))
    {
      if !active || current != generation { return None; }
      var todo, found := rows.Keys, [];
      while todo != {}
        invariant todo <= rows.Keys
        invariant Lists(found, map id | id in rows && id !in todo :: rows[id], session, processes)
      {
        var id :| id in todo;
        todo := todo - {id};
        if Wanted(rows[id], session, processes) {
          found := found + [rows[id].identity];
        }
      }
      assert (map id | id in rows && id !in todo :: rows[id]) == rows;
      r := Some(found);
    }
  }

  predicate Wanted(row: Row, session: string, processes: bool) {
    Unfinished(row, session) && row.identity.kind.Process? == processes
  }

  ghost predicate Lists(found: seq<Identity>, rows: Rows, session: string, processes: bool) {
    && (forall i, j :: 0 <= i < j < |found| ==> found[i].id != found[j].id)
    && (forall i :: 0 <= i < |found| ==>
          found[i].id in rows && rows[found[i].id].identity == found[i]
          && Wanted(rows[found[i].id], session, processes))
    && (forall id :: id in rows && Wanted(rows[id], session, processes) ==> rows[id].identity in found)
  }

  // ---- The tracker of one connection ----

  datatype Value =
    | Initialize(resume: Option<string>) | Tracked(identity: Identity) | Read(identity: Identity) | Passthrough

  datatype Pending = Pending(value: Value, forwarded: bool)

  /** The process map holds exactly the unfinished processes of the session. */
  ghost predicate Follows(processes: map<string, Identity>, rows: Rows, session: string) {
    && (forall pid :: pid in processes ==>
          && processes[pid].kind == Process(pid) && processes[pid].id in rows
          && rows[processes[pid].id].identity == processes[pid] && OpenProcess(rows[processes[pid].id], session))
    && (forall id :: id in rows && OpenProcess(rows[id], session) ==>
          rows[id].identity.kind.pid in processes && processes[rows[id].identity.kind.pid] == rows[id].identity)
  }

  predicate DistinctPids(rows: Rows, session: string) {
    forall i, j :: i in rows && j in rows && SameProcess(rows[i], rows[j], session) ==> i == j
  }

  predicate SameProcess(r: Row, q: Row, session: string) {
    OpenProcess(r, session) && OpenProcess(q, session) && r.identity.kind == q.identity.kind
  }

  /** The process map holds exactly the listed processes, each under its identifier. */
  ghost predicate Holds(processes: map<string, Identity>, found: seq<Identity>) {
    && (forall pid :: pid in processes ==> processes[pid] in found && processes[pid].kind == Process(pid))
    && (forall j :: 0 <= j < |found| && found[j].kind.Process? ==>
          found[j].kind.pid in processes && processes[found[j].kind.pid] == found[j])
  }

  lemma HoldsOneMore(processes: map<string, Identity>, found: seq<Identity>, i: nat)
    requires i < |found| && found[i].kind.Process? && found[i].kind.pid !in processes
    requires Holds(processes, found[..i])
    ensures Holds(processes[found[i].kind.pid := found[i]], found[..i + 1])
  {
    assert found[..i + 1] == found[..i] + [found[i]];
  }

  lemma HoldsAll(processes: map<string, Identity>, found: seq<Identity>, rows: Rows, session: string)
    requires Keyed(rows) && Lists(found, rows, session, true) && Holds(processes, found)
    ensures DistinctPids(rows, session)
    ensures Follows(processes, Marked(rows, Ids(found), Active), session)
  {
    forall i, j | i in rows && j in rows && SameProcess(rows[i], rows[j], session)
      ensures i == j
    {
      assert Wanted(rows[i], session, true) && Wanted(rows[j], session, true);
    }
    var marked := Marked(rows, Ids(found), Active);
    forall id | id in marked && OpenProcess(marked[id], session)
      ensures marked[id].identity.kind.pid in processes
      ensures processes[marked[id].identity.kind.pid] == marked[id].identity
    {
      assert Wanted(rows[id], session, true);
    }
  }

  lemma TwiceIsNotDistinct(processes: map<string, Identity>, found: seq<Identity>, i: nat, rows: Rows, session: string)
    requires Keyed(rows) && Lists(found, rows, session, true) && i < |found| && Holds(processes, found[..i])
    requires found[i].kind.pid in processes
    ensures !DistinctPids(rows, session)
  {
    var j :| 0 <= j < i && found[..i][j] == processes[found[i].kind.pid];
    assert found[j].id != found[i].id;
    assert SameProcess(rows[found[j].id], rows[found[i].id], session);
  }

  /** The given rows put into a state, the others as they were. */
  function Marked(rows: Rows, ids: set<string>, state: RowState): Rows {
    map id | id in rows :: if id in ids then rows[id].(state := state) else rows[id]
  }

  lemma MarkOne(rows: Rows, ids: set<string>, id: string, state: RowState)
    requires id in rows
    ensures Set(Marked(rows, ids, state), id, state) == Marked(rows, ids + {id}, state)
  {
  }

  ghost function Ids(found: seq<Identity>): set<string> {
    set i | 0 <= i < |found| :: found[i].id
  }

  lemma IdsGrow(found: seq<Identity>, i: nat)
    requires i < |found|
    ensures Ids(found[..i + 1]) == Ids(found[..i]) + {found[i].id}
  {
    assert forall j :: 0 <= j < i ==> found[..i + 1][j] == found[..i][j];
    forall id | id in Ids(found[..i])
      ensures id in Ids(found[..i + 1])
    {
      var j :| 0 <= j < i && found[..i][j].id == id;
      assert found[..i + 1][j].id == id;
    }
    assert found[..i + 1][i].id == found[i].id;
  }

  predicate Resuming(pending: map<string, Pending>) {
    exists k :: k in pending && pending[k].value.Initialize? && pending[k].value.resume.Some?
  }

  lemma ResumingStays(pending: map<string, Pending>, later: map<string, Pending>)
    requires forall k :: k in pending && pending[k].value.Initialize? ==>
                           k in later && later[k].value == pending[k].value
    ensures Resuming(pending) ==> Resuming(later)
  {
    if k :| k in pending && pending[k].value.Initialize? && pending[k].value.resume.Some? {
      assert k in later && later[k].value.Initialize? && later[k].value.resume.Some?;
    }
  }

  predicate Initializing(pending: map<string, Pending>) {
    exists k :: k in pending && pending[k].value.Initialize?
  }

  predicate BothInitialize(p: Pending, q: Pending) {
    p.value.Initialize? && q.value.Initialize?
  }

  /** Whether a reply means that the interaction is over. */
  predicate Ends(value: Value, failed: bool, quiesced: bool) {
    match value
    case Tracked(identity) => identity.kind.Filesystem? || failed
    case Read(_) => !failed && quiesced
    case _ => false
  }

  /** A successful start must name the process that was asked for. */
  predicate StartMatches(value: Value, failed: bool, pid: string) {
    value.Tracked? && value.identity.kind.Process? && !failed ==> value.identity.kind.pid == pid
  }

  /** The process identifier an interaction stands for, if any. */
  function OwnPid(identity: Identity): set<string> {
    if identity.kind.Process? then {identity.kind.pid} else {}
  }

  class ExecTracker {
    const ledger: InteractionLedger
    const generation: nat
    var pending: map<string, Pending>
    var processes: map<string, Identity>
    var early: set<string>
    var session: Option<string>

    constructor (ledger: InteractionLedger, generation: nat)
      ensures this.ledger == ledger && this.generation == generation
      ensures pending == map[] && processes == map[] && early == {} && session == None
    {
      this.ledger, this.generation := ledger, generation;
      pending, processes, early, session := map[], map[], {}, None;
    }

    ghost predicate Known(identity: Identity)
      reads ledger
    {
      identity.id in ledger.rows && ledger.rows[identity.id].identity == identity
    }

    /** Before its one initialize is answered a connection has no session and follows
        nothing; whatever it remembers is in the ledger. */
    ghost predicate Valid()
      reads this, ledger
    {
      && Keyed(ledger.rows)
      && (session.None? ==> processes == map[] && forall k :: k in pending ==> !pending[k].value.Tracked?)
      && (forall k :: k in pending && pending[k].value.Initialize? ==> session.None?)
      && (forall k, l :: k in pending && l in pending && BothInitialize(pending[k], pending[l]) ==> k == l)
      && (forall k :: k in pending && pending[k].value.Tracked? ==> Known(pending[k].value.identity))
      && (forall k :: k in pending && pending[k].value.Read? ==> Known(pending[k].value.identity))
      && (forall pid :: pid in processes ==> processes[pid].kind == Process(pid) && Known(processes[pid]))
      && (early != {} ==> Resuming(pending))
    }

    /** A process start or a file-system change is journalled before it may be forwarded:
        on success its row is active and the request is pending, not yet forwarded. */
    method Journal(key: string, id: string, kind: Kind) returns (ok: bool)
      requires Valid() && id !in ledger.rows
      modifies this, ledger`rows
      ensures Valid()
      ensures ok <==>
        && key !in old(pending) && old(session).Some? && (kind.Process? ==> kind.pid !in old(processes))
        && ledger.active && generation == ledger.generation
        && !old(ledger.Taken(Identity(id, generation, session.value, kind)))
      ensures ok ==>
        var identity := Identity(id, generation, old(session).value, kind);
        && ledger.rows == old(ledger.rows)[id := Row(identity, Active)]
        && pending == old(pending)[key := Pending(Tracked(identity), false)]
        && processes == if kind.Process? then old(processes)[kind.pid := identity] else old(processes)
      ensures !ok ==> ledger.rows == old(ledger.rows) && pending == old(pending) && processes == old(processes)
      ensures session == old(session) && early == old(early)
    {
      if key in pending || session.None? { return false; }
      if kind.Process? && kind.pid in processes { return false; }
      var identity := Identity(id, generation, session.value, kind);
      ok := ledger.Begin(identity);
      if !ok { return; }
      if kind.Process? {
        processes := processes[kind.pid := identity];
      }
      pending := pending[key := Pending(Tracked(identity), false)];
    }

    /** An initialize request; a connection makes at most one that is answered. */
    method AskInitialize(key: string, resume: Option<string>) returns (ok: bool)
      requires Valid()
      modifies this`pending
      ensures Valid()
      ensures ok <==> key !in old(pending) && session.None?
                      && forall k :: k in old(pending) ==> !old(pending)[k].value.Initialize?
      ensures pending == if ok then old(pending)[key := Pending(Initialize(resume), false)] else old(pending)
    {
      if key in pending || session.Some? || Initializing(pending) { return false; }
      pending := pending[key := Pending(Initialize(resume), false)];
      ok := true;
    }

    /** A read remembers which interaction its process identifier stood for when it was
        sent. */
    method AskRead(key: string, pid: string) returns (ok: bool)
      requires Valid()
      modifies this`pending
      ensures Valid()
      ensures ok <==> key !in old(pending)
      ensures ok ==>
        pending == old(pending)[key := Pending(if pid in processes then Read(processes[pid]) else Passthrough, false)]
      ensures !ok ==> pending == old(pending)
    {
      if key in pending { return false; }
      pending := pending[key := Pending(if pid in processes then Read(processes[pid]) else Passthrough, false)];
      ResumingStays(old(pending), pending);
      ok := true;
    }

    method MarkForwarded(key: string) returns (ok: bool)
      requires Valid()
      modifies this`pending
      ensures Valid()
      ensures ok <==> key in old(pending)
      ensures pending == if ok then old(pending)[key := old(pending)[key].(forwarded := true)] else old(pending)
    {
      if key !in pending { return false; }
      pending := pending[key := pending[key].(forwarded := true)];
      ResumingStays(old(pending), pending);
      ok := true;
    }

    method FinishProcess(identity: Identity)
      requires Valid() && Known(identity)
      modifies this`processes, ledger`rows
      ensures Valid()
      ensures ledger.rows == Set(old(ledger.rows), identity.id, Finished)
      ensures processes == if identity.kind.Process? then old(processes) - {identity.kind.pid} else old(processes)
    {
      var finished := ledger.Transition(identity, Finished);
      assert finished;
      if identity.kind.Process? {
        processes := processes - {identity.kind.pid};
      }
    }

    /** A quiesced notice finishes a followed process, and is kept for later exactly while a
        resume is waiting for its reply. */
    method QuiescedNotice(pid: string)
      requires Valid()
      modifies this`processes, this`early, ledger`rows
      ensures Valid()
      ensures pid in old(processes) ==>
        && ledger.rows == Set(old(ledger.rows), old(processes)[pid].id, Finished)
        && processes == old(processes) - {pid} && early == old(early)
      ensures pid !in old(processes) ==>
        && ledger.rows == old(ledger.rows) && processes == old(processes)
        && early == if exists k :: k in pending && pending[k].value.Initialize? && pending[k].value.resume.Some?
                    then old(early) + {pid} else old(early)
    {
      if pid in processes {
        FinishProcess(processes[pid]);
      } else if Resuming(pending) {
        early := early + {pid};
      }
    }

    /** A reply to a request other than initialize.  Only a file operation's reply, a failed
        start, or a read that saw the end finishes a row; the reply must answer a request
        that was forwarded. */
    method Reply(key: string, failed: bool, quiesced: bool, pid: string) returns (ok: bool)
      requires Valid() && (key in pending ==> !pending[key].value.Initialize?)
      modifies this`pending, this`processes, ledger`rows
      ensures Valid()
      ensures ok ==> key in old(pending) && old(pending)[key].forwarded && pending == old(pending) - {key}
      ensures ok && !Ends(old(pending)[key].value, failed, quiesced) ==> ledger.rows == old(ledger.rows)
      ensures ok && Ends(old(pending)[key].value, failed, quiesced) ==>
        ledger.rows == Set(old(ledger.rows), old(pending)[key].value.identity.id, Finished)
      ensures ok ==>
        processes == if Ends(old(pending)[key].value, failed, quiesced)
                     then old(processes) - OwnPid(old(pending)[key].value.identity) else old(processes)
      ensures !ok ==> ledger.rows == old(ledger.rows) && pending == old(pending) && processes == old(processes)
      ensures ok <==> key in old(pending) && old(pending)[key].forwarded
                      && StartMatches(old(pending)[key].value, failed, pid)
      // The same in terms of the request alone.
      ensures key in old(pending) && old(pending)[key].forwarded ==>
        match old(pending)[key].value
        case Tracked(identity) =>
          if identity.kind.Filesystem? || failed
          then ok && ledger.rows == Set(old(ledger.rows), identity.id, Finished)
          else (ok <==> pid == identity.kind.pid) && ledger.rows == old(ledger.rows)
        case Read(identity) =>
          ok && ledger.rows == if quiesced && !failed then Set(old(ledger.rows), identity.id, Finished)
                               else old(ledger.rows)
        case _ => ok && ledger.rows == old(ledger.rows)
    {
      if key !in pending || !pending[key].forwarded { return false; }
      var value := pending[key].value;
      if !StartMatches(value, failed, pid) { return false; }
      if Ends(value, failed, quiesced) {
        if value.Tracked? && value.identity.kind.Filesystem? {
          var finished := ledger.Transition(value.identity, Finished);
          assert finished;
        } else {
          FinishProcess(value.identity);
        }
      }
      pending := pending - {key};
      ResumingStays(old(pending), pending);
      ok := true;
    }

    /** Takes over one process of a resumed session, in one transaction. */
    method TakeOver(identity: Identity) returns (ok: bool)
      requires Keyed(ledger.rows) && identity.kind.Process?
      modifies this`processes, ledger`rows
      ensures Keyed(ledger.rows)
      ensures ok <==> identity.kind.pid !in old(processes) && ledger.active && generation == ledger.generation
                      && Admits(old(ledger.rows), identity, Active)
      ensures ledger.rows == if ok then Set(old(ledger.rows), identity.id, Active) else old(ledger.rows)
      ensures processes == if ok then old(processes)[identity.kind.pid := identity] else old(processes)
    {
      if identity.kind.pid in processes { return false; }
      ok := ledger.Reattach(identity, generation);
      if ok {
        processes := processes[identity.kind.pid := identity];
      }
    }

    /** Takes over the listed processes of a resumed session, stopping at the first that
        shares its identifier with another. */
    method ReattachAll(name: string, found: seq<Identity>) returns (ok: bool)
      requires Keyed(ledger.rows) && ledger.active && generation == ledger.generation
      requires processes == map[] && Lists(found, ledger.rows, name, true)
      modifies this`processes, ledger`rows
      ensures Keyed(ledger.rows)
      ensures ok <==> DistinctPids(old(ledger.rows), name)
      ensures ok ==> ledger.rows == Marked(old(ledger.rows), Ids(found), Active)
      ensures ok ==> Follows(processes, ledger.rows, name)
    {
      ghost var rows := ledger.rows;
      assert Marked(rows, {}, Active) == rows;
      var i := 0;
      while i < |found|
        invariant 0 <= i <= |found|
        invariant Keyed(ledger.rows) && ledger.active && generation == ledger.generation
        invariant ledger.rows == Marked(rows, Ids(found[..i]), Active)
        invariant Holds(processes, found[..i])
      {
        if found[i].kind.pid in processes {
          TwiceIsNotDistinct(processes, found, i, rows, name);
          return false;
        }
        ReattachOne(found, i, rows);
        i := i + 1;
      }
      assert found[..i] == found;
      HoldsAll(processes, found, rows, name);
      ok := true;
    }

    method ReattachOne(found: seq<Identity>, i: nat, ghost rows: Rows)
      requires i < |found| && found[i].kind.Process? && found[i].kind.pid !in processes
      requires Keyed(ledger.rows) && ledger.active && generation == ledger.generation
      requires ledger.rows == Marked(rows, Ids(found[..i]), Active) && Holds(processes, found[..i])
      requires found[i].id in rows && rows[found[i].id].identity == found[i] && rows[found[i].id].state != Finished
      modifies this`processes, ledger`rows
      ensures Keyed(ledger.rows) && ledger.rows == Marked(rows, Ids(found[..i + 1]), Active)
      ensures Holds(processes, found[..i + 1])
    {
      MarkOne(rows, Ids(found[..i]), found[i].id, Active);
      IdsGrow(found, i);
      HoldsOneMore(processes, found, i);
      var attached := TakeOver(found[i]);
      assert attached;
    }

    /** Finishes a process if it is followed, in one transaction. */
    method FinishFollowed(pid: string)
      requires Keyed(ledger.rows) && (pid in processes ==> Known(processes[pid]))
      modifies this`processes, ledger`rows
      ensures Keyed(ledger.rows) && processes == old(processes) - {pid}
      ensures ledger.rows == if pid in old(processes) then Set(old(ledger.rows), old(processes)[pid].id, Finished)
                             else old(ledger.rows)
    {
      if pid in processes {
        var finished := ledger.Transition(processes[pid], Finished);
        assert finished;
      }
      processes := processes - {pid};
    }

    /** Finishes the followed processes that were reported quiesced before the reply. */
    method FinishEarly(name: string)
      requires Keyed(ledger.rows) && Follows(processes, ledger.rows, name)
      modifies this`processes, ledger`rows
      ensures Keyed(ledger.rows)
      ensures ledger.rows == Marked(old(ledger.rows), Named(old(processes), early), Finished)
      ensures processes == old(processes) - early
    {
      ghost var rows, followed := ledger.rows, processes;
      var todo := early;
      assert Named(followed, {}) == {} && Marked(rows, {}, Finished) == rows;
      while todo != {}
        invariant todo <= early
        invariant Keyed(ledger.rows) && processes == followed - (early - todo)
        invariant ledger.rows == Marked(rows, Named(followed, early - todo), Finished)
      {
        var pid :| pid in todo;
        FinishOneEarly(pid, rows, followed, early - todo);
        assert early - (todo - {pid}) == (early - todo) + {pid};
        todo := todo - {pid};
      }
      assert early - todo == early;
    }

    method FinishOneEarly(pid: string, ghost rows: Rows, ghost followed: map<string, Identity>, ghost done: set<string>)
      requires Keyed(ledger.rows) && processes == followed - done && pid !in done
      requires ledger.rows == Marked(rows, Named(followed, done), Finished)
      requires pid in followed ==> followed[pid].id in rows && rows[followed[pid].id].identity == followed[pid]
      modifies this`processes, ledger`rows
      ensures Keyed(ledger.rows) && processes == followed - (done + {pid})
      ensures ledger.rows == Marked(rows, Named(followed, done + {pid}), Finished)
    {
      NamedGrows(followed, done, pid);
      if pid in processes {
        MarkOne(rows, Named(followed, done), processes[pid].id, Finished);
      }
      FinishFollowed(pid);
    }

    /** Finishes the listed file operations. */
    method FinishFiles(name: string, found: seq<Identity>)
      requires Keyed(ledger.rows) && Lists(found, ledger.rows, name, false)
      modifies ledger`rows
      ensures Keyed(ledger.rows)
      ensures ledger.rows == Marked(old(ledger.rows), Ids(found), Finished)
    {
      ghost var rows := ledger.rows;
      assert Marked(rows, {}, Finished) == rows;
      var i := 0;
      while i < |found|
        invariant 0 <= i <= |found|
        invariant Keyed(ledger.rows) && ledger.rows == Marked(rows, Ids(found[..i]), Finished)
      {
        MarkOne(rows, Ids(found[..i]), found[i].id, Finished);
        IdsGrow(found, i);
        var finished := ledger.Transition(found[i], Finished);
        assert finished;
        i := i + 1;
      }
      assert found[..|found|] == found;
    }

    /** The reply to an initialize request: the session's name, or nothing for an error.
        When the request resumes a session, the connection takes over its processes,
        finishes those reported quiesced in the meantime and finishes its file operations. */
    method InitializeReply(key: string, reply: Option<string>) returns (ok: bool)
      requires Valid() && (key in pending ==> pending[key].value.Initialize?)
      modifies this, ledger`rows
      ensures ok ==> Valid()
      ensures var resumes := key in old(pending) && old(pending)[key].value.resume.Some? && reply.Some?;
        && (ok <==>
              && key in old(pending) && old(pending)[key].forwarded
              && (resumes ==>
                    && reply == old(pending)[key].value.resume && ledger.active && generation == ledger.generation
                    && DistinctPids(old(ledger.rows), reply.value)))
        && (ok && resumes ==>
              && ledger.rows == Resumed(old(ledger.rows), reply.value, old(early))
              && Follows(processes, ledger.rows, reply.value))
        && (!resumes ==> ledger.rows == old(ledger.rows) && processes == old(processes))
      ensures ok ==> session == reply && early == {} && pending == old(pending) - {key}
    {
      if key !in pending || !pending[key].forwarded { return false; }
      if reply.Some? {
        if pending[key].value.resume.Some? {
          if pending[key].value.resume != reply { return false; }
          var resumed := Resume(reply.value);
          if !resumed { return false; }
        }
      }
      Conclude(key, reply);
      ok := true;
    }

    /** The answer has been worked through. */
    method Conclude(key: string, reply: Option<string>)
      modifies this`session, this`early, this`pending
      ensures session == if reply.Some? then reply else old(session)
      ensures early == {} && pending == old(pending) - {key}
    {
      if reply.Some? {
        session := reply;
      }
      early := {};
      pending := pending - {key};
    }

    method Resume(name: string) returns (ok: bool)
      requires Keyed(ledger.rows) && processes == map[]
      modifies this`processes, ledger`rows
      ensures Keyed(ledger.rows)
      ensures ok <==> ledger.active && generation == ledger.generation && DistinctPids(old(ledger.rows), name)
      ensures ok ==> ledger.rows == Resumed(old(ledger.rows), name, early)
      ensures ok ==> Follows(processes, ledger.rows, name)
    {
      ghost var rows := ledger.rows;
      var found := ledger.List(name, true, generation);
      if found.None? { return false; }
      ok := ReattachAll(name, found.value);
      if !ok { return; }
      ghost var followed := processes;
      ReattachedRows(rows, name, found.value);
      FinishEarly(name);
      EarlyRows(rows, name, early, followed);
      var files := ledger.List(name, false, generation);
      FinishFiles(name, files.value);
      FileRows(rows, name, early, files.value);
      ResumedFollows(rows, name, early, followed);
    }

    /** The connection is over.  What was never forwarded is finished; whatever else it
        follows or waits for becomes detached, unless it is finished already. */
    method Detach()
      requires Valid()
      modifies ledger`rows
      ensures Valid()
      ensures ledger.rows == Left(old(ledger.rows), Waiting(pending, false),
                                  Followed(processes) + Waiting(pending, true))
      // The same, row by row.
      ensures forall id :: id in old(ledger.rows) ==>
        var row := old(ledger.rows)[id];
        && id in ledger.rows && ledger.rows[id].identity == row.identity
        && ledger.rows[id].state ==
             if row.state == Finished || AsksFor(pending, row.identity, false) then Finished
             else if AsksFor(pending, row.identity, true) || HasProcess(processes, row.identity) then RowState.Detached
             else row.state
    {
      LeftInTwo(ledger.rows, Waiting(pending, false), Followed(processes) + Waiting(pending, true));
      var never := Waiting(pending, false);
      var rest := Followed(processes) + Waiting(pending, true) - never;
      ghost var rows := ledger.rows;
      MarkAll(never, Finished);
      MarkAll(rest, Detached);
      forall id | id in rows {
        LeftRowByRow(pending, processes, rows[id].identity);
      }
    }

    /** Puts each row into the state, where it admits that; the order does not matter. */
    method MarkAll(identities: set<Identity>, state: RowState)
      requires Keyed(ledger.rows) && forall i :: i in identities ==> Known(i)
      modifies ledger`rows
      ensures Keyed(ledger.rows) && ledger.rows == MarkedOpen(old(ledger.rows), identities, state)
    {
      ghost var rows := ledger.rows;
      assert MarkedOpen(rows, {}, state) == rows;
      var todo := identities;
      while todo != {}
        invariant todo <= identities && Keyed(ledger.rows)
        invariant ledger.rows == MarkedOpen(rows, identities - todo, state)
      {
        var identity :| identity in todo;
        MarkOpenOne(rows, identities - todo, identity, state);
        assert identities - (todo - {identity}) == (identities - todo) + {identity};
        var _ := ledger.Transition(identity, state);
        todo := todo - {identity};
      }
      assert identities - todo == identities;
    }
  }

  // ---- What detaching does to the rows ----

  /** A request for the interaction waits for its reply, forwarded or not. */
  ghost predicate AsksFor(pending: map<string, Pending>, identity: Identity, forwarded: bool) {
    exists k :: k in pending && pending[k] == Pending(Tracked(identity), forwarded)
  }

  ghost predicate HasProcess(processes: map<string, Identity>, identity: Identity) {
    exists pid :: pid in processes && processes[pid] == identity
  }

  lemma LeftRowByRow(pending: map<string, Pending>, processes: map<string, Identity>, identity: Identity)
    ensures identity in Waiting(pending, false) <==> AsksFor(pending, identity, false)
    ensures identity in Waiting(pending, true) <==> AsksFor(pending, identity, true)
    ensures identity in Followed(processes) <==> HasProcess(processes, identity)
  {
    forall forwarded | identity in Waiting(pending, forwarded)
      ensures AsksFor(pending, identity, forwarded)
    {
      var k :| k in pending && pending[k].value.Tracked? && pending[k].forwarded == forwarded
        && pending[k].value.identity == identity;
      assert pending[k] == Pending(Tracked(identity), forwarded);
    }
  }

  /** The given rows put into a state unless they are finished. */
  function MarkedOpen(rows: Rows, identities: set<Identity>, state: RowState): Rows {
    map id | id in rows ::
      if rows[id].identity in identities && rows[id].state != Finished then rows[id].(state := state) else rows[id]
  }

  lemma MarkOpenOne(rows: Rows, identities: set<Identity>, identity: Identity, state: RowState)
    requires Keyed(rows) && identity.id in rows && rows[identity.id].identity == identity
    ensures var before := MarkedOpen(rows, identities, state);
      MarkedOpen(rows, identities + {identity}, state) ==
      if Admits(before, identity, state) then Set(before, identity.id, state) else before
  {
  }

  lemma LeftInTwo(rows: Rows, never: set<Identity>, followed: set<Identity>)
    ensures MarkedOpen(MarkedOpen(rows, never, Finished), followed - never, RowState.Detached) ==
            Left(rows, never, followed)
  {
  }

  function Waiting(pending: map<string, Pending>, forwarded: bool): set<Identity> {
    set k | k in pending && pending[k].value.Tracked? && pending[k].forwarded == forwarded :: pending[k].value.identity
  }

  function Followed(processes: map<string, Identity>): set<Identity> {
    set pid | pid in processes :: processes[pid]
  }

  /** The rows a connection leaves behind. */
  function Left(rows: Rows, never: set<Identity>, followed: set<Identity>): Rows {
    map id | id in rows :: rows[id].(state := LeftState(rows[id], never, followed))
  }

  function LeftState(row: Row, never: set<Identity>, followed: set<Identity>): RowState {
    if row.state == Finished || row.identity in never then Finished
    else if row.identity in followed then RowState.Detached
    else row.state
  }

  // ---- What resuming does to the rows ----

  /** A resumed session's rows: processes active, or finished if reported quiesced, and
      file operations finished. */
  function Resumed(rows: Rows, session: string, early: set<string>): Rows {
    map id | id in rows ::
      if OpenFile(rows[id], session) then rows[id].(state := Finished) else AfterEarly(rows[id], session, early)
  }

  function AfterEarly(row: Row, session: string, early: set<string>): Row {
    if !OpenProcess(row, session) then row
    else row.(state := if row.identity.kind.pid in early then Finished else Active)
  }

  function Reattached(rows: Rows, session: string): Rows {
    map id | id in rows :: AfterEarly(rows[id], session, {})
  }

  lemma ReattachedRows(rows: Rows, session: string, found: seq<Identity>)
    requires Keyed(rows) && Lists(found, rows, session, true)
    ensures Marked(rows, Ids(found), Active) == Reattached(rows, session)
  {
    forall id | id in rows
      ensures id in Ids(found) <==> OpenProcess(rows[id], session)
    {
      if OpenProcess(rows[id], session) {
        assert Wanted(rows[id], session, true);
      }
    }
  }

  lemma EarlyRows(rows: Rows, session: string, early: set<string>, followed: map<string, Identity>)
    requires Keyed(rows) && Follows(followed, Reattached(rows, session), session)
    ensures Marked(Reattached(rows, session), Named(followed, early), Finished) ==
            map id | id in rows :: AfterEarly(rows[id], session, early)
  {
    var middle := Reattached(rows, session);
    forall id | id in rows
      ensures id in Named(followed, early) <==>
              OpenProcess(rows[id], session) && rows[id].identity.kind.pid in early
    {
      if OpenProcess(rows[id], session) {
        assert OpenProcess(middle[id], session);
      }
    }
  }

  lemma FileRows(rows: Rows, session: string, early: set<string>, files: seq<Identity>)
    requires Keyed(rows)
    requires Lists(files, map id | id in rows :: AfterEarly(rows[id], session, early), session, false)
    ensures Marked(map id | id in rows :: AfterEarly(rows[id], session, early), Ids(files), Finished) ==
            Resumed(rows, session, early)
  {
    var middle := map id | id in rows :: AfterEarly(rows[id], session, early);
    forall id | id in rows
      ensures id in Ids(files) <==> OpenFile(rows[id], session)
    {
      if OpenFile(rows[id], session) {
        assert Wanted(middle[id], session, false);
      }
    }
  }

  lemma ResumedFollows(rows: Rows, session: string, early: set<string>, followed: map<string, Identity>)
    requires Keyed(rows) && Follows(followed, Reattached(rows, session), session)
    ensures Follows(followed - early, Resumed(rows, session, early), session)
  {
    var before, after := Reattached(rows, session), Resumed(rows, session, early);
    forall id | id in after && OpenProcess(after[id], session)
      ensures before[id].identity.kind.pid in followed - early
      ensures (followed - early)[before[id].identity.kind.pid] == after[id].identity
    {
      assert OpenProcess(before[id], session);
    }
  }

  /** The interactions that the process map holds under the given identifiers. */
  ghost function Named(processes: map<string, Identity>, pids: set<string>): set<string> {
    set pid | pid in processes && pid in pids :: processes[pid].id
  }

  lemma NamedGrows(processes: map<string, Identity>, pids: set<string>, pid: string)
    ensures Named(processes, pids + {pid}) ==
            if pid in processes then Named(processes, pids) + {processes[pid].id} else Named(processes, pids)
  {
  }
}
