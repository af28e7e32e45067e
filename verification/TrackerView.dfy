/** How a state of the protocol carries what one connection's tracker and the ledger hold, and
    that single steps of both agree. */
module TrackerView {
  import opened Interactions
  import opened Wrappers
  import Q = Quiescence
  import T = InteractionTracker

  /** What a tracker and its ledger hold; `current` is the lease's generation. */
  datatype View = View(rows: T.Rows, current: nat, generation: nat, pending: map<string, T.Pending>,
                       processes: map<string, T.Identity>, early: set<string>, session: Option<string>)

  ghost function ViewOf(t: T.ExecTracker): View
    reads t, t.ledger
  {
    View(t.ledger.rows, t.ledger.generation, t.generation, t.pending, t.processes, t.early, t.session)
  }

  function RowOf(row: T.Row): Q.Row {
    Q.Row(row.identity.session, row.identity.kind, row.state)
  }

  function RowsOf(rows: T.Rows): map<string, Q.Row> {
    map id | id in rows :: RowOf(rows[id])
  }

  function IdsOf(processes: map<string, T.Identity>): map<string, string> {
    map pid | pid in processes :: processes[pid].id
  }

  predicate RequestCarried(x: Q.Exec, c: nat, p: T.Pending) {
    p.value.Tracked? ==>
      p.value.identity.id in x.requests && x.requests[p.value.identity.id] == Q.Request(c, p.forwarded)
  }

  predicate ReadCarried(p: T.Pending, session: Option<string>) {
    p.value.Read? ==> session == Some(p.value.identity.session) && p.value.identity.kind.Process?
  }

  predicate OwnProcess(identity: T.Identity, pid: string, session: Option<string>) {
    identity.kind == Process(pid) && session == Some(identity.session)
  }

  predicate SameInteraction(p: T.Pending, q: T.Pending) {
    p.value.Tracked? && q.value.Tracked? && p.value.identity.id == q.value.identity.id
  }

  /** State `x` of the protocol has connection `c` as the tracker has it.  The protocol notes
      early notices for every connection that is not ready, the tracker only while a resume
      waits. */
  ghost predicate Carries(x: Q.Exec, c: nat, v: View) {
    && x.rows == RowsOf(v.rows) && x.requests.Keys <= x.rows.Keys && x.generation == v.current
    && c in x.conns && x.conns[c].generation == v.generation
    && (v.session.Some? <==> x.conns[c].ready) && (v.session.Some? ==> x.conns[c].session == v.session)
    && x.conns[c].processes == IdsOf(v.processes) && v.early <= x.conns[c].early
    && (forall pid :: pid in v.processes ==> OwnProcess(v.processes[pid], pid, x.conns[c].session))
    && (forall k :: k in v.pending ==>
          RequestCarried(x, c, v.pending[k]) && ReadCarried(v.pending[k], x.conns[c].session))
    && (forall k, l :: k in v.pending && l in v.pending && SameInteraction(v.pending[k], v.pending[l]) ==> k == l)
  }

  /** Nothing of another connection changes but the rows they share. */
  ghost predicate SameOthers(x: Q.Exec, y: Q.Exec, c: nat) {
    && (forall d :: d != c ==> (d in y.conns <==> d in x.conns) && (d in x.conns ==> y.conns[d] == x.conns[d]))
    && (forall id :: id in x.requests && x.requests[id].conn != c ==>
          id in y.requests && y.requests[id] == x.requests[id])
    && y.owner == x.owner && y.generation == x.generation && y.requests.Keys <= y.rows.Keys
  }

  /** What a step of one connection leaves of another. */
  lemma OthersStayCarried(x: Q.Exec, y: Q.Exec, c: nat, d: nat, v: View, rows: T.Rows)
    requires d != c && Carries(x, d, v) && SameOthers(x, y, c) && y.rows == RowsOf(rows)
    ensures Carries(y, d, v.(rows := rows))
  {
    forall k | k in v.pending
      ensures RequestCarried(y, d, v.pending[k])
    {
      assert RequestCarried(x, d, v.pending[k]);
    }
  }

  // ---- Single steps ----

  /** What beginning an interaction changes. */
  lemma BeganFrame(x: Q.Exec, c: nat, id: string, kind: Kind)
    requires c in x.conns && x.conns[c].session.Some? && id !in x.rows && x.requests.Keys <= x.rows.Keys
    ensures var y := Q.Began(x, c, id, kind, true); var conn := x.conns[c];
      && y.rows == x.rows[id := Q.Row(conn.session.value, kind, Active)]
      && y.requests == x.requests[id := Q.Request(c, false)]
      && y.conns == x.conns[c := if kind.Process? then conn.(processes := conn.processes[kind.pid := id]) else conn]
      && SameOthers(x, y, c)
  {
  }

  lemma BeganRows(rows: T.Rows, processes: map<string, T.Identity>, identity: T.Identity, pid: string)
    ensures RowsOf(rows[identity.id := T.Row(identity, Active)]) ==
              RowsOf(rows)[identity.id := Q.Row(identity.session, identity.kind, Active)]
    ensures IdsOf(processes[pid := identity]) == IdsOf(processes)[pid := identity.id]
  {
  }

  lemma BeginCarried(x: Q.Exec, c: nat, v: View, w: View, key: string, identity: T.Identity)
    requires Carries(x, c, v) && v.session == Some(identity.session)
    requires identity.id !in v.rows && key !in v.pending
    requires w == v.(rows := v.rows[identity.id := T.Row(identity, Active)],
                     pending := v.pending[key := T.Pending(T.Tracked(identity), false)],
                     processes := if identity.kind.Process? then v.processes[identity.kind.pid := identity]
                                  else v.processes)
    ensures var y := Q.Began(x, c, identity.id, identity.kind, true); Carries(y, c, w) && SameOthers(x, y, c)
  {
    var y := Q.Began(x, c, identity.id, identity.kind, true);
    BeganFrame(x, c, identity.id, identity.kind);
    BeganRows(v.rows, v.processes, identity, if identity.kind.Process? then identity.kind.pid else "");
    forall k | k in v.pending
      ensures RequestCarried(y, c, v.pending[k])
      ensures v.pending[k].value.Tracked? ==> v.pending[k].value.identity.id != identity.id
    {
      assert RequestCarried(x, c, v.pending[k]);
    }
    PendingGrows(y, c, v, w, key, identity);
  }

  lemma PendingGrows(y: Q.Exec, c: nat, v: View, w: View, key: string, identity: T.Identity)
    requires key !in v.pending && w.pending == v.pending[key := T.Pending(T.Tracked(identity), false)]
    requires identity.id in y.requests && y.requests[identity.id] == Q.Request(c, false) && c in y.conns
    requires forall k :: k in v.pending ==>
               RequestCarried(y, c, v.pending[k]) && ReadCarried(v.pending[k], y.conns[c].session)
    requires forall k :: k in v.pending && v.pending[k].value.Tracked? ==>
               v.pending[k].value.identity.id != identity.id
    requires forall k, l :: k in v.pending && l in v.pending && SameInteraction(v.pending[k], v.pending[l]) ==> k == l
    ensures forall k :: k in w.pending ==>
              RequestCarried(y, c, w.pending[k]) && ReadCarried(w.pending[k], y.conns[c].session)
    ensures forall k, l :: k in w.pending && l in w.pending && SameInteraction(w.pending[k], w.pending[l]) ==> k == l
  {
  }

  lemma ForwardCarried(lease: Q.Lease, x: Q.Exec, c: nat, v: View, key: string)
    requires Carries(x, c, v) && key in v.pending && v.pending[key].value.Tracked?
    requires Q.Enabled(lease, x, Q.Forward(v.pending[key].value.identity.id))
    ensures var y := Q.Do(lease, x, Q.Forward(v.pending[key].value.identity.id));
      && Carries(y, c, v.(pending := v.pending[key := v.pending[key].(forwarded := true)]))
      && SameOthers(x, y, c)
  {
    var w := v.(pending := v.pending[key := v.pending[key].(forwarded := true)]);
    var y := Q.Do(lease, x, Q.Forward(v.pending[key].value.identity.id));
    forall k | k in w.pending
      ensures RequestCarried(y, c, w.pending[k]) && ReadCarried(w.pending[k], y.conns[c].session)
    {
      assert RequestCarried(x, c, v.pending[k]) && ReadCarried(v.pending[k], x.conns[c].session);
      assert k != key ==> !SameInteraction(v.pending[k], v.pending[key]);
    }
    forall k, l | k in w.pending && l in w.pending && SameInteraction(w.pending[k], w.pending[l])
      ensures k == l
    {
      assert SameInteraction(v.pending[k], v.pending[l]);
    }
  }

  /** Finishing a row is the same in both. */
  lemma FinishRows(rows: T.Rows, x: Q.Exec, id: string)
    requires x.rows == RowsOf(rows) && id in rows
    ensures Q.Finish(x, id).rows == RowsOf(T.Set(rows, id, Finished))
  {
  }

  lemma FinishProcessCarried(x: Q.Exec, c: nat, v: View, id: string, pid: string)
    requires Carries(x, c, v) && id in v.rows
    ensures var y := Q.FinishProcess(x, c, id, pid);
      && Carries(y, c, v.(rows := T.Set(v.rows, id, Finished), processes := v.processes - {pid}))
      && SameOthers(x, y, c)
  {
    FinishRows(v.rows, x, id);
    var y := Q.FinishProcess(x, c, id, pid);
    assert y.conns[c].processes == IdsOf(v.processes - {pid});
    forall k | k in v.pending
      ensures RequestCarried(y, c, v.pending[k])
    {
      assert RequestCarried(x, c, v.pending[k]);
    }
  }

  /** Taking an answered request off the list. */
  lemma AnsweredCarried(x: Q.Exec, c: nat, v: View, key: string)
    requires Carries(x, c, v) && key in v.pending && v.pending[key].value.Tracked?
    ensures var y := Q.Answered(x, v.pending[key].value.identity.id);
      Carries(y, c, v.(pending := v.pending - {key})) && SameOthers(x, y, c)
  {
    var w := v.(pending := v.pending - {key});
    var y := Q.Answered(x, v.pending[key].value.identity.id);
    assert RequestCarried(x, c, v.pending[key]);
    forall k | k in w.pending
      ensures RequestCarried(y, c, w.pending[k])
    {
      assert RequestCarried(x, c, v.pending[k]);
      assert !SameInteraction(v.pending[k], v.pending[key]);
    }
  }

  lemma OthersCompose(x: Q.Exec, y: Q.Exec, z: Q.Exec, c: nat)
    requires SameOthers(x, y, c) && SameOthers(y, z, c)
    ensures SameOthers(x, z, c)
  {
  }
}
