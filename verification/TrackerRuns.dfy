/** Taking over a resumed session, and leaving one, as runs of the protocol's actions. */
module TrackerRuns {
  import opened Interactions
  import opened TrackerView
  import opened Wrappers
  import Q = Quiescence
  import T = InteractionTracker

  // ---- Resuming a session ----

  function Mark(rows: map<string, Q.Row>, ids: set<string>, state: RowState): map<string, Q.Row> {
    map id | id in rows :: if id in ids then rows[id].(state := state) else rows[id]
  }

  predicate OpenProcess(x: Q.Exec, id: string, session: string) {
    id in x.rows && x.rows[id].state != Finished && x.rows[id].session == session && x.rows[id].kind.Process?
  }

  /** The server has answered connection `c`, which works through the answer, not behind the
      lease. */
  predicate Waiting(x: Q.Exec, c: nat, session: string) {
    && c in x.conns && x.conns[c].session == Some(session) && x.conns[c].answered && !x.conns[c].ready
    && x.conns[c].generation == x.generation
  }

  /** Processes that can be taken over: open, and each under an identifier of its own. */
  ghost predicate Takeable(x: Q.Exec, c: nat, session: string, ids: set<string>) {
    && Waiting(x, c, session)
    && (forall id :: id in ids ==>
          OpenProcess(x, id, session) && x.rows[id].kind.pid !in x.conns[c].processes)
    && (forall i, j :: i in ids && j in ids && x.rows[i].kind == x.rows[j].kind ==> i == j)
  }

  /** Only the rows and the processes of connection `c` differ. */
  predicate OnlyProcesses(x: Q.Exec, y: Q.Exec, c: nat) {
    && c in x.conns && c in y.conns
    && y == x.(rows := y.rows, conns := x.conns[c := x.conns[c].(processes := y.conns[c].processes)])
  }

  /** After taking over, the connection follows the processes as well. */
  ghost predicate TookOver(x: Q.Exec, y: Q.Exec, c: nat, ids: set<string>)
    requires c in x.conns && c in y.conns && (forall id :: id in ids ==> id in x.rows && x.rows[id].kind.Process?)
  {
    && (forall pid :: pid in y.conns[c].processes ==>
          || (pid in x.conns[c].processes && y.conns[c].processes[pid] == x.conns[c].processes[pid])
          || (y.conns[c].processes[pid] in ids && x.rows[y.conns[c].processes[pid]].kind.pid == pid))
    && (forall pid :: pid in x.conns[c].processes ==> pid in y.conns[c].processes)
    && (forall id :: id in ids ==>
          x.rows[id].kind.pid in y.conns[c].processes && y.conns[c].processes[x.rows[id].kind.pid] == id)
  }

  lemma TakeOne(lease: Q.Lease, x: Q.Exec, c: nat, session: string, ids: set<string>, id: string)
    returns (y: Q.Exec)
    requires Takeable(x, c, session, ids) && id in ids
    ensures Q.Run(lease, x, [Q.Reattach(c, id)], y)
    ensures OnlyProcesses(x, y, c) && y.rows == Mark(x.rows, {id}, Active)
    ensures y.conns[c].processes == x.conns[c].processes[x.rows[id].kind.pid := id]
    ensures Takeable(y, c, session, ids - {id})
  {
    y := Q.Do(lease, x, Q.Reattach(c, id));
    Q.RunOne(lease, x, Q.Reattach(c, id));
  }

  lemma MarkTwice(rows: map<string, Q.Row>, a: set<string>, b: set<string>, state: RowState)
    ensures Mark(Mark(rows, a, state), b, state) == Mark(rows, a + b, state)
  {
  }

  lemma {:induction false} TakeOverRun(lease: Q.Lease, x: Q.Exec, c: nat, session: string, ids: set<string>)
    returns (actions: seq<Q.Action>, y: Q.Exec)
    requires Takeable(x, c, session, ids)
    ensures Q.Run(lease, x, actions, y) && OnlyProcesses(x, y, c)
    ensures y.rows == Mark(x.rows, ids, Active) && TookOver(x, y, c, ids)
    decreases |ids|
  {
    if ids == {} {
      actions, y := [], x;
    } else {
      var id :| id in ids;
      var next := TakeOne(lease, x, c, session, ids, id);
      var rest;
      rest, y := TakeOverRun(lease, next, c, session, ids - {id});
      actions := [Q.Reattach(c, id)] + rest;
      Q.RunOn(lease, x, [Q.Reattach(c, id)], next, rest, y);
      TookOverTogether(x, next, y, c, ids, id);
    }
  }

  lemma TookOverTogether(x: Q.Exec, next: Q.Exec, y: Q.Exec, c: nat, ids: set<string>, id: string)
    requires OnlyProcesses(x, next, c) && OnlyProcesses(next, y, c) && id in ids
    requires forall i :: i in ids ==>
               i in x.rows && x.rows[i].kind.Process? && x.rows[i].kind.pid !in x.conns[c].processes
    requires forall i, j :: i in ids && j in ids && x.rows[i].kind == x.rows[j].kind ==> i == j
    requires next.rows == Mark(x.rows, {id}, Active) && y.rows == Mark(next.rows, ids - {id}, Active)
    requires next.conns[c].processes == x.conns[c].processes[x.rows[id].kind.pid := id]
    requires TookOver(next, y, c, ids - {id})
    ensures OnlyProcesses(x, y, c) && y.rows == Mark(x.rows, ids, Active) && TookOver(x, y, c, ids)
  {
    MarkTwice(x.rows, {id}, ids - {id}, Active);
    assert {id} + (ids - {id}) == ids;
    TookOverOneMore(x, next, y, c, ids, id);
  }

  lemma TookOverOneMore(x: Q.Exec, next: Q.Exec, y: Q.Exec, c: nat, ids: set<string>, id: string)
    requires c in x.conns && c in next.conns && c in y.conns && id in ids
    requires forall i :: i in ids ==>
               i in x.rows && x.rows[i].kind.Process? && x.rows[i].kind.pid !in x.conns[c].processes
    requires forall i, j :: i in ids && j in ids && x.rows[i].kind == x.rows[j].kind ==> i == j
    requires next.rows == Mark(x.rows, {id}, Active)
    requires next.conns[c].processes == x.conns[c].processes[x.rows[id].kind.pid := id]
    requires TookOver(next, y, c, ids - {id})
    ensures TookOver(x, y, c, ids)
  {
    var pid := x.rows[id].kind.pid;
    assert pid in y.conns[c].processes;
    forall i | i in ids
      ensures x.rows[i].kind.pid in y.conns[c].processes && y.conns[c].processes[x.rows[i].kind.pid] == i
    {
      if i != id {
        assert next.rows[i].kind == x.rows[i].kind;
      }
    }
  }

  ghost function Named(processes: map<string, string>, pids: set<string>): set<string> {
    set pid | pid in pids && pid in processes :: processes[pid]
  }

  /** Followed processes that were reported quiesced early. */
  ghost predicate EarlyOver(x: Q.Exec, c: nat, session: string, pids: set<string>) {
    && Waiting(x, c, session)
    && (forall pid :: pid in pids ==>
          pid in x.conns[c].early && pid in x.conns[c].processes && x.conns[c].processes[pid] in x.rows)
  }

  lemma FinishEarlyOne(lease: Q.Lease, x: Q.Exec, c: nat, session: string, pids: set<string>, pid: string)
    returns (y: Q.Exec)
    requires EarlyOver(x, c, session, pids) && pid in pids
    ensures Q.Run(lease, x, [Q.FinishEarly(c, pid)], y) && OnlyProcesses(x, y, c)
    ensures y.rows == Mark(x.rows, {x.conns[c].processes[pid]}, Finished)
    ensures y.conns[c].processes == x.conns[c].processes - {pid} && EarlyOver(y, c, session, pids - {pid})
  {
    y := Q.Do(lease, x, Q.FinishEarly(c, pid));
    Q.RunOne(lease, x, Q.FinishEarly(c, pid));
    assert y.rows == Mark(x.rows, {x.conns[c].processes[pid]}, Finished);
  }

  lemma {:induction false} FinishEarlyRun(lease: Q.Lease, x: Q.Exec, c: nat, session: string, pids: set<string>)
    returns (actions: seq<Q.Action>, y: Q.Exec)
    requires EarlyOver(x, c, session, pids)
    ensures Q.Run(lease, x, actions, y) && OnlyProcesses(x, y, c)
    ensures y.rows == Mark(x.rows, Named(x.conns[c].processes, pids), Finished)
    ensures y.conns[c].processes == x.conns[c].processes - pids
    decreases |pids|
  {
    if pids == {} {
      actions, y := [], x;
      assert Mark(x.rows, {}, Finished) == x.rows && Named(x.conns[c].processes, {}) == {};
    } else {
      var pid :| pid in pids;
      var next := FinishEarlyOne(lease, x, c, session, pids, pid);
      var rest;
      rest, y := FinishEarlyRun(lease, next, c, session, pids - {pid});
      actions := [Q.FinishEarly(c, pid)] + rest;
      Q.RunOn(lease, x, [Q.FinishEarly(c, pid)], next, rest, y);
      var processes := x.conns[c].processes;
      MarkTwice(x.rows, {processes[pid]}, Named(next.conns[c].processes, pids - {pid}), Finished);
      NamedWithout(processes, pids, pid);
    }
  }

  lemma NamedWithout(processes: map<string, string>, pids: set<string>, pid: string)
    requires pid in pids && pid in processes
    ensures {processes[pid]} + Named(processes - {pid}, pids - {pid}) == Named(processes, pids)
    ensures (processes - {pid}) - (pids - {pid}) == processes - pids
  {
    forall id | id in Named(processes, pids)
      ensures id in {processes[pid]} + Named(processes - {pid}, pids - {pid})
    {
      var p :| p in pids && p in processes && processes[p] == id;
      assert p != pid ==> p in pids - {pid} && p in processes - {pid};
    }
  }

  /** The connection has found these file operations to finish. */
  ghost predicate Found(x: Q.Exec, c: nat, ids: set<string>) {
    c in x.conns && !x.conns[c].ready && ids <= x.conns[c].listed && ids <= x.rows.Keys
  }

  lemma FinishOldOne(lease: Q.Lease, x: Q.Exec, c: nat, ids: set<string>, id: string) returns (y: Q.Exec)
    requires Found(x, c, ids) && id in ids
    ensures Q.Run(lease, x, [Q.FinishOld(c, id)], y)
    ensures y == x.(rows := Mark(x.rows, {id}, Finished)) && Found(y, c, ids - {id})
  {
    y := Q.Do(lease, x, Q.FinishOld(c, id));
    Q.RunOne(lease, x, Q.FinishOld(c, id));
    assert y.rows == Mark(x.rows, {id}, Finished);
  }

  lemma {:induction false} FinishOldRun(lease: Q.Lease, x: Q.Exec, c: nat, ids: set<string>)
    returns (actions: seq<Q.Action>, y: Q.Exec)
    requires Found(x, c, ids)
    ensures Q.Run(lease, x, actions, y) && y == x.(rows := Mark(x.rows, ids, Finished))
    decreases |ids|
  {
    if ids == {} {
      actions, y := [], x;
      assert Mark(x.rows, {}, Finished) == x.rows;
    } else {
      var id :| id in ids;
      var next := FinishOldOne(lease, x, c, ids, id);
      var rest;
      rest, y := FinishOldRun(lease, next, c, ids - {id});
      actions := [Q.FinishOld(c, id)] + rest;
      Q.RunOn(lease, x, [Q.FinishOld(c, id)], next, rest, y);
      MarkTwice(x.rows, {id}, ids - {id}, Finished);
      assert {id} + (ids - {id}) == ids;
    }
  }

  lemma ListRun(lease: Q.Lease, x: Q.Exec, c: nat, session: string) returns (y: Q.Exec)
    requires Waiting(x, c, session)
    ensures Q.Run(lease, x, [Q.ListFiles(c)], y)
    ensures y == x.(conns := x.conns[c := x.conns[c].(listed := Q.OpenFiles(x, session))])
  {
    y := Q.Do(lease, x, Q.ListFiles(c));
    Q.RunOne(lease, x, Q.ListFiles(c));
  }

  // ---- The answered resume as a whole ----

  function OpenProcesses(x: Q.Exec, session: string): set<string> {
    set id | id in x.rows && OpenProcess(x, id, session)
  }

  lemma AllTakeable(x: Q.Exec, c: nat, session: string, rows: T.Rows)
    requires x.rows == RowsOf(rows) && Waiting(x, c, session) && x.conns[c].processes == map[]
    requires T.DistinctPids(rows, session)
    ensures Takeable(x, c, session, OpenProcesses(x, session))
  {
    var ids := OpenProcesses(x, session);
    forall i, j | i in ids && j in ids && x.rows[i].kind == x.rows[j].kind
      ensures i == j
    {
      assert T.SameProcess(rows[i], rows[j], session);
    }
  }

  /** The processes reported quiesced early are those of the open ones. */
  lemma EarlyAreOpen(x: Q.Exec, y: Q.Exec, c: nat, session: string, early: set<string>, id: string)
    requires c in x.conns && x.conns[c].processes == map[] && c in y.conns && id in x.rows
    requires TookOver(x, y, c, OpenProcesses(x, session))
    ensures id in Named(y.conns[c].processes, early * y.conns[c].processes.Keys) <==>
              OpenProcess(x, id, session) && x.rows[id].kind.pid in early
  {
    var processes := y.conns[c].processes;
    if id in Named(processes, early * processes.Keys) {
      var pid :| pid in early && pid in processes && processes[pid] == id;
    }
    if OpenProcess(x, id, session) && x.rows[id].kind.pid in early {
      assert processes[x.rows[id].kind.pid] == id;
    }
  }

  lemma ResumedRow(row: T.Row, session: string, early: set<string>)
    ensures var q := RowOf(row); var open := q.state != Finished && q.session == session;
      RowOf(if T.OpenFile(row, session) then row.(state := Finished) else T.AfterEarly(row, session, early)) ==
        if open && (q.kind.Filesystem? || q.kind.pid in early) then q.(state := Finished)
        else if open then q.(state := Active) else q
  {
  }

  /** The three steps together put the rows where the tracker puts them. */
  lemma ResumedRows(x: Q.Exec, y: Q.Exec, c: nat, session: string, rows: T.Rows, early: set<string>)
    requires x.rows == RowsOf(rows) && c in x.conns && x.conns[c].processes == map[] && c in y.conns
    requires TookOver(x, y, c, OpenProcesses(x, session))
    ensures var over := Named(y.conns[c].processes, early * y.conns[c].processes.Keys);
      Mark(Mark(Mark(x.rows, OpenProcesses(x, session), Active), over, Finished), Q.OpenFiles(x, session), Finished)
        == RowsOf(T.Resumed(rows, session, early))
  {
    var over := Named(y.conns[c].processes, early * y.conns[c].processes.Keys);
    var marked :=
      Mark(Mark(Mark(x.rows, OpenProcesses(x, session), Active), over, Finished), Q.OpenFiles(x, session), Finished);
    forall id | id in rows
      ensures marked[id] == RowOf(T.Resumed(rows, session, early)[id])
    {
      EarlyAreOpen(x, y, c, session, early, id);
      ResumedRow(rows[id], session, early);
    }
  }

  lemma ResumedProcesses(x: Q.Exec, y: Q.Exec, c: nat, session: string, rows: T.Rows, early: set<string>,
                         followed: map<string, T.Identity>)
    requires T.Keyed(rows) && x.rows == RowsOf(rows) && c in x.conns && x.conns[c].processes == map[] && c in y.conns
    requires TookOver(x, y, c, OpenProcesses(x, session))
    requires T.Follows(followed, T.Resumed(rows, session, early), session)
    ensures y.conns[c].processes - (early * y.conns[c].processes.Keys) == IdsOf(followed)
  {
    var processes, after := y.conns[c].processes, T.Resumed(rows, session, early);
    forall pid | pid in processes && pid !in early
      ensures pid in followed && followed[pid].id == processes[pid]
    {
      var id := processes[pid];
      assert OpenProcess(x, id, session) && x.rows[id].kind.pid == pid;
      assert T.OpenProcess(after[id], session);
    }
    forall pid | pid in followed
      ensures pid in processes && pid !in early
    {
      var id := followed[pid].id;
      assert T.OpenProcess(after[id], session) && after[id].identity.kind == Process(pid);
      assert OpenProcess(x, id, session);
    }
  }

  lemma ReadyRun(lease: Q.Lease, x: Q.Exec, c: nat) returns (y: Q.Exec)
    requires c in x.conns && x.conns[c].answered && !x.conns[c].ready
    ensures Q.Run(lease, x, [Q.Ready(c)], y)
    ensures y == x.(conns := x.conns[c := x.conns[c].(ready := true, early := {})])
  {
    y := Q.Do(lease, x, Q.Ready(c));
    Q.RunOne(lease, x, Q.Ready(c));
  }

  /** The state after an answer was worked through. */
  ghost predicate Answers(x: Q.Exec, y: Q.Exec, c: nat, rows: T.Rows, followed: map<string, T.Identity>)
    requires c in x.conns
  {
    c in y.conns
    && y == x.(rows := RowsOf(rows),
               conns := x.conns[c := x.conns[c].(processes := IdsOf(followed), ready := true, early := {},
                                                 listed := y.conns[c].listed)])
  }

  /** Up to the file operations. */
  lemma TakenAndFinished(lease: Q.Lease, x: Q.Exec, c: nat, session: string, rows: T.Rows, early: set<string>,
                         followed: map<string, T.Identity>)
    returns (actions: seq<Q.Action>, y: Q.Exec)
    requires T.Keyed(rows) && x.rows == RowsOf(rows) && T.DistinctPids(rows, session)
    requires Waiting(x, c, session) && x.conns[c].processes == map[] && early <= x.conns[c].early
    requires T.Follows(followed, T.Resumed(rows, session, early), session)
    ensures Q.Run(lease, x, actions, y) && OnlyProcesses(x, y, c) && y.conns[c].processes == IdsOf(followed)
    ensures Mark(y.rows, Q.OpenFiles(x, session), Finished) == RowsOf(T.Resumed(rows, session, early))
    ensures SameFiles(x.rows, y.rows)
  {
    AllTakeable(x, c, session, rows);
    var taken, x1 := TakeOverRun(lease, x, c, session, OpenProcesses(x, session));
    var pids := early * x1.conns[c].processes.Keys;
    FollowedIsEarlyOver(x, x1, c, session, pids);
    var finished;
    finished, y := FinishEarlyRun(lease, x1, c, session, pids);
    actions := taken + finished;
    Q.RunOn(lease, x, taken, x1, finished, y);
    OnlyProcessesTwice(x, x1, y, c);
    NamedAreOpen(x, x1, c, session, pids);
    MarkKeepsFiles(x, session, Named(x1.conns[c].processes, pids));
    assert Mark(y.rows, Q.OpenFiles(x, session), Finished) == RowsOf(T.Resumed(rows, session, early)) by {
      ResumedRows(x, x1, c, session, rows, early);
    }
    assert y.conns[c].processes == IdsOf(followed) by {
      ResumedProcesses(x, x1, c, session, rows, early, followed);
    }
  }

  lemma MarkKeepsFiles(x: Q.Exec, session: string, ids: set<string>)
    requires forall id :: id in ids ==> OpenProcess(x, id, session)
    ensures SameFiles(x.rows, Mark(Mark(x.rows, OpenProcesses(x, session), Active), ids, Finished))
  {
  }

  lemma OnlyProcessesTwice(x: Q.Exec, x1: Q.Exec, y: Q.Exec, c: nat)
    requires OnlyProcesses(x, x1, c) && OnlyProcesses(x1, y, c)
    ensures OnlyProcesses(x, y, c)
  {
  }

  /** Rows of file operations are as they were. */
  ghost predicate SameFiles(rows: map<string, Q.Row>, later: map<string, Q.Row>) {
    && later.Keys == rows.Keys
    && forall id :: id in rows && (rows[id].kind.Filesystem? || later[id].kind.Filesystem?) ==> later[id] == rows[id]
  }

  lemma SameOpenFiles(x: Q.Exec, y: Q.Exec, session: string)
    requires SameFiles(x.rows, y.rows)
    ensures Q.OpenFiles(y, session) == Q.OpenFiles(x, session)
  {
  }

  lemma ResumeRun(lease: Q.Lease, x: Q.Exec, c: nat, session: string, rows: T.Rows, early: set<string>,
                  followed: map<string, T.Identity>)
    returns (actions: seq<Q.Action>, y: Q.Exec)
    requires T.Keyed(rows) && x.rows == RowsOf(rows) && T.DistinctPids(rows, session)
    requires Waiting(x, c, session) && x.conns[c].processes == map[] && early <= x.conns[c].early
    requires T.Follows(followed, T.Resumed(rows, session, early), session)
    ensures Q.Run(lease, x, actions, y) && Answers(x, y, c, T.Resumed(rows, session, early), followed)
  {
    var first, x1 := TakenAndFinished(lease, x, c, session, rows, early, followed);
    var x2 := ListRun(lease, x1, c, session);
    SameOpenFiles(x, x1, session);
    var second, x3 := FinishOldRun(lease, x2, c, Q.OpenFiles(x, session));
    y := ReadyRun(lease, x3, c);
    Q.RunOn(lease, x, first, x1, [Q.ListFiles(c)], x2);
    Q.RunOn(lease, x, first + [Q.ListFiles(c)], x2, second, x3);
    Q.RunOn(lease, x, first + [Q.ListFiles(c)] + second, x3, [Q.Ready(c)], y);
    actions := first + [Q.ListFiles(c)] + second + [Q.Ready(c)];
  }

  lemma NamedAreOpen(x: Q.Exec, y: Q.Exec, c: nat, session: string, pids: set<string>)
    requires c in x.conns && x.conns[c].processes == map[] && c in y.conns
    requires TookOver(x, y, c, OpenProcesses(x, session))
    ensures forall id :: id in Named(y.conns[c].processes, pids) ==> OpenProcess(x, id, session)
  {
  }

  lemma FollowedIsEarlyOver(x: Q.Exec, y: Q.Exec, c: nat, session: string, pids: set<string>)
    requires OnlyProcesses(x, y, c) && Waiting(x, c, session) && x.conns[c].processes == map[]
    requires y.rows == Mark(x.rows, OpenProcesses(x, session), Active)
    requires TookOver(x, y, c, OpenProcesses(x, session))
    requires pids <= x.conns[c].early && pids <= y.conns[c].processes.Keys
    ensures EarlyOver(y, c, session, pids)
  {
  }

  // ---- Leaving ----

  /** The given rows put into a state unless they are finished. */
  function MarkOpen(rows: map<string, Q.Row>, ids: set<string>, state: RowState): map<string, Q.Row> {
    map id | id in rows :: if id in ids && rows[id].state != Finished then rows[id].(state := state) else rows[id]
  }

  predicate Detaching(x: Q.Exec, c: nat) {
    c in x.conns && x.conns[c].life == Q.Detaching
  }

  ghost predicate OwnRequests(x: Q.Exec, c: nat, ids: set<string>, forwarded: bool) {
    Detaching(x, c) && forall id :: id in ids ==> id in x.requests && x.requests[id] == Q.Request(c, forwarded)
  }

  function Leaving(forwarded: bool): RowState {
    if forwarded then Detached else Finished
  }

  lemma DetachRequestOne(lease: Q.Lease, x: Q.Exec, c: nat, ids: set<string>, forwarded: bool, id: string)
    returns (y: Q.Exec)
    requires OwnRequests(x, c, ids, forwarded) && id in ids
    ensures Q.Run(lease, x, [Q.DetachRequest(id)], y)
    ensures y == x.(rows := MarkOpen(x.rows, {id}, Leaving(forwarded)))
  {
    y := Q.Do(lease, x, Q.DetachRequest(id));
    Q.RunOne(lease, x, Q.DetachRequest(id));
    assert y.rows == MarkOpen(x.rows, {id}, Leaving(forwarded));
  }

  lemma MarkOpenTwice(rows: map<string, Q.Row>, a: set<string>, b: set<string>, state: RowState)
    ensures MarkOpen(MarkOpen(rows, a, state), b, state) == MarkOpen(rows, a + b, state)
  {
  }

  lemma {:induction false} DetachRequestsRun(lease: Q.Lease, x: Q.Exec, c: nat, ids: set<string>, forwarded: bool)
    returns (actions: seq<Q.Action>, y: Q.Exec)
    requires OwnRequests(x, c, ids, forwarded)
    ensures Q.Run(lease, x, actions, y) && y == x.(rows := MarkOpen(x.rows, ids, Leaving(forwarded)))
    decreases |ids|
  {
    if ids == {} {
      actions, y := [], x;
      assert MarkOpen(x.rows, {}, Leaving(forwarded)) == x.rows;
    } else {
      var id :| id in ids;
      var next := DetachRequestOne(lease, x, c, ids, forwarded, id);
      var rest;
      rest, y := DetachRequestsRun(lease, next, c, ids - {id}, forwarded);
      actions := [Q.DetachRequest(id)] + rest;
      Q.RunOn(lease, x, [Q.DetachRequest(id)], next, rest, y);
      MarkOpenTwice(x.rows, {id}, ids - {id}, Leaving(forwarded));
      assert {id} + (ids - {id}) == ids;
    }
  }

  lemma DetachProcessOne(lease: Q.Lease, x: Q.Exec, c: nat, pid: string) returns (y: Q.Exec)
    requires Detaching(x, c) && pid in x.conns[c].processes
    ensures Q.Run(lease, x, [Q.DetachProcess(c, pid)], y)
    ensures y == x.(rows := MarkOpen(x.rows, {x.conns[c].processes[pid]}, Detached))
  {
    y := Q.Do(lease, x, Q.DetachProcess(c, pid));
    Q.RunOne(lease, x, Q.DetachProcess(c, pid));
    assert y.rows == MarkOpen(x.rows, {x.conns[c].processes[pid]}, Detached);
  }

  lemma {:induction false} DetachProcessesRun(lease: Q.Lease, x: Q.Exec, c: nat, pids: set<string>)
    returns (actions: seq<Q.Action>, y: Q.Exec)
    requires Detaching(x, c) && pids <= x.conns[c].processes.Keys
    ensures Q.Run(lease, x, actions, y)
    ensures y == x.(rows := MarkOpen(x.rows, Named(x.conns[c].processes, pids), Detached))
    decreases |pids|
  {
    if pids == {} {
      actions, y := [], x;
      assert MarkOpen(x.rows, {}, Detached) == x.rows && Named(x.conns[c].processes, {}) == {};
    } else {
      var pid :| pid in pids;
      var processes := x.conns[c].processes;
      var next := DetachProcessOne(lease, x, c, pid);
      var rest;
      rest, y := DetachProcessesRun(lease, next, c, pids - {pid});
      actions := [Q.DetachProcess(c, pid)] + rest;
      Q.RunOn(lease, x, [Q.DetachProcess(c, pid)], next, rest, y);
      MarkOpenTwice(x.rows, {processes[pid]}, Named(processes, pids - {pid}), Detached);
      NamedApart(processes, pids, pid);
    }
  }

  lemma NamedApart(processes: map<string, string>, pids: set<string>, pid: string)
    requires pid in pids && pid in processes
    ensures {processes[pid]} + Named(processes, pids - {pid}) == Named(processes, pids)
  {
    forall id | id in Named(processes, pids)
      ensures id in {processes[pid]} + Named(processes, pids - {pid})
    {
      var p :| p in pids && p in processes && processes[p] == id;
      assert p != pid ==> p in pids - {pid};
    }
  }

  ghost function IdsIn(identities: set<T.Identity>): set<string> {
    set i | i in identities :: i.id
  }

  ghost predicate AllKnown(rows: T.Rows, identities: set<T.Identity>) {
    forall i :: i in identities ==> i.id in rows && rows[i.id].identity == i
  }

  lemma KnownById(rows: T.Rows, identities: set<T.Identity>, id: string)
    requires T.Keyed(rows) && AllKnown(rows, identities) && id in rows
    ensures id in IdsIn(identities) <==> rows[id].identity in identities
  {
  }

  /** The three steps together leave the rows as the tracker leaves them. */
  lemma LeftRows(rows: T.Rows, never: set<T.Identity>, waiting: set<T.Identity>, followed: set<T.Identity>)
    requires T.Keyed(rows) && AllKnown(rows, never) && AllKnown(rows, waiting) && AllKnown(rows, followed)
    ensures
      MarkOpen(MarkOpen(MarkOpen(RowsOf(rows), IdsIn(never), Finished), IdsIn(waiting), Detached),
               IdsIn(followed), Detached)
        == RowsOf(T.Left(rows, never, followed + waiting))
  {
    forall id | id in rows
      ensures id in IdsIn(never) <==> rows[id].identity in never
      ensures id in IdsIn(waiting) <==> rows[id].identity in waiting
      ensures id in IdsIn(followed) <==> rows[id].identity in followed
    {
      KnownById(rows, never, id);
      KnownById(rows, waiting, id);
      KnownById(rows, followed, id);
    }
  }

  lemma LeaveRun(lease: Q.Lease, x: Q.Exec, c: nat, v: View) returns (actions: seq<Q.Action>, y: Q.Exec)
    requires Carries(x, c, v) && x.conns[c].life == Q.Closed && T.Keyed(v.rows)
    requires AllKnown(v.rows, T.Waiting(v.pending, false)) && AllKnown(v.rows, T.Waiting(v.pending, true))
    requires AllKnown(v.rows, T.Followed(v.processes))
    ensures Q.Run(lease, x, actions, y)
    ensures y == x.(conns := x.conns[c := x.conns[c].(life := Q.Detaching)],
                    rows := RowsOf(T.Left(v.rows, T.Waiting(v.pending, false),
                                          T.Followed(v.processes) + T.Waiting(v.pending, true))))
  {
    var x1 := Q.Do(lease, x, Q.StartDetach(c));
    Q.RunOne(lease, x, Q.StartDetach(c));
    var never, waiting := T.Waiting(v.pending, false), T.Waiting(v.pending, true);
    WaitingIsOwn(x, x1, c, v, false);
    WaitingIsOwn(x, x1, c, v, true);
    var first, second, third, x2, x3;
    first, x2 := DetachRequestsRun(lease, x1, c, IdsIn(never), false);
    second, x3 := DetachRequestsRun(lease, x2, c, IdsIn(waiting), true);
    third, y := DetachProcessesRun(lease, x3, c, x.conns[c].processes.Keys);
    FollowedIds(v.processes);
    LeftRows(v.rows, never, waiting, T.Followed(v.processes));
    Q.RunOn(lease, x, [Q.StartDetach(c)], x1, first, x2);
    Q.RunOn(lease, x, [Q.StartDetach(c)] + first, x2, second, x3);
    Q.RunOn(lease, x, [Q.StartDetach(c)] + first + second, x3, third, y);
    actions := [Q.StartDetach(c)] + first + second + third;
  }

  lemma FollowedIds(processes: map<string, T.Identity>)
    ensures Named(IdsOf(processes), IdsOf(processes).Keys) == IdsIn(T.Followed(processes))
  {
    forall id | id in Named(IdsOf(processes), IdsOf(processes).Keys)
      ensures id in IdsIn(T.Followed(processes))
    {
      var pid :| pid in processes && processes[pid].id == id;
      assert processes[pid] in T.Followed(processes);
    }
    forall id | id in IdsIn(T.Followed(processes))
      ensures id in Named(IdsOf(processes), IdsOf(processes).Keys)
    {
      var pid :| pid in processes && processes[pid].id == id;
      assert IdsOf(processes)[pid] == id;
    }
  }

  lemma WaitingIsOwn(x: Q.Exec, y: Q.Exec, c: nat, v: View, forwarded: bool)
    requires Carries(x, c, v) && Detaching(y, c) && y.requests == x.requests
    ensures OwnRequests(y, c, IdsIn(T.Waiting(v.pending, forwarded)), forwarded)
  {
    forall id | id in IdsIn(T.Waiting(v.pending, forwarded))
      ensures id in x.requests && x.requests[id] == Q.Request(c, forwarded)
    {
      var i :| i in T.Waiting(v.pending, forwarded) && i.id == id;
      var k :| k in v.pending && v.pending[k].value.Tracked? && v.pending[k].forwarded == forwarded
        && v.pending[k].value.identity == i;
      assert RequestCarried(x, c, v.pending[k]);
    }
  }
}
