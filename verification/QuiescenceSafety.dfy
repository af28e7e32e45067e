/** In every reachable state a request that the exec server is working on has an unfinished
    ledger row, as long as clients neither use process identifiers again nor let the attaches
    to a session overlap. */
module QuiescenceSafety {
  import opened Interactions
  import opened Quiescence
  import opened Wrappers

  // ---- What holds whatever the rows say ----

  /** A request belongs to a connection that is ready in the row's session; before it is
      forwarded it has not run. */
  predicate RequestAgrees(x: Exec, id: string)
    requires id in x.requests
  {
    var r := x.requests[id];
    && id in x.rows && At(x, r.conn, x.rows[id].session) && x.conns[r.conn].ready
    && (!r.forwarded ==> id !in x.running && id !in x.ended)
  }

  ghost predicate RequestsAgree(x: Exec) {
    forall id :: id in x.requests ==> RequestAgrees(x, id)
  }

  ghost predicate ProcessesAgree(x: Exec) {
    forall c, pid :: c in x.conns && pid in x.conns[c].processes ==>
      && x.conns[c].session.Some? && x.conns[c].processes[pid] in x.rows
      && IsProcess(x.rows[x.conns[c].processes[pid]], x.conns[c].session.value, pid)
  }

  ghost predicate EarlyAgrees(x: Exec) {
    forall c, pid :: c in x.conns && pid in x.conns[c].early ==>
      x.conns[c].session.Some? && Reported(x, x.conns[c].session.value, pid)
  }

  predicate SameProcess(r: Row, q: Row) {
    r.kind.Process? && q.kind == r.kind && q.session == r.session
  }

  /** Within a session a process identifier stands for one interaction. */
  ghost predicate Unique(x: Exec) {
    forall i, j :: i in x.rows && j in x.rows && SameProcess(x.rows[i], x.rows[j]) ==> i == j
  }

  /** An answered connection has its session, and none is ahead of the lease. */
  ghost predicate ConnsAgree(x: Exec) {
    forall c :: c in x.conns ==>
      x.conns[c].generation <= x.generation && (x.conns[c].answered ==> x.conns[c].session.Some?)
  }

  predicate AreFiles(x: Exec, ids: set<string>) {
    forall id :: id in ids ==> id in x.rows && x.rows[id].kind.Filesystem?
  }

  ghost predicate ListedAreFiles(x: Exec) {
    forall c :: c in x.conns ==> AreFiles(x, x.conns[c].listed)
  }

  ghost predicate Core(x: Exec) {
    && RequestsAgree(x) && ProcessesAgree(x) && EarlyAgrees(x) && Unique(x) && ConnsAgree(x) && ListedAreFiles(x)
    && x.ended <= x.rows.Keys && x.running <= x.rows.Keys && x.running !! x.ended
  }

  // ---- What the rows say ----

  predicate Serves(x: Exec, session: string, c: nat) {
    session in x.owner && x.owner[session] == c
  }

  /** Forwarding the request would have no effect. */
  predicate NotServed(x: Exec, id: string)
    requires id in x.requests && id in x.rows
  {
    var c := x.requests[id].conn;
    c in x.conns && (x.conns[c].life != Open || !Serves(x, x.rows[id].session, c))
  }

  /** The server does not work on the request and never will. */
  predicate Dead(x: Exec, id: string) {
    && id in x.rows && id !in x.running
    && (id in x.requests && !x.requests[id].forwarded ==> NotServed(x, id))
  }

  ghost predicate RunningUnfinished(x: Exec) {
    forall id :: id in x.running ==> id in x.rows && x.rows[id].state != Finished
  }

  ghost predicate FinishedIsDead(x: Exec) {
    forall id :: id in x.requests && id in x.rows && x.rows[id].state == Finished ==> Dead(x, id)
  }

  /** A connection behind the lease, without a request, never has one again. */
  ghost predicate Silent(x: Exec, c: nat) {
    && c in x.conns && x.conns[c].generation < x.generation
    && forall id :: id in x.requests ==> x.requests[id].conn != c
  }

  predicate Taking(x: Exec, c: nat) {
    c in x.conns && x.conns[c].answered && !x.conns[c].ready && x.conns[c].generation == x.generation
  }

  /** While a connection works through its answer, the session's file operations stay over:
      the server serves no other connection that could have one. */
  ghost predicate TakingAgrees(x: Exec) {
    forall c :: Taking(x, c) ==>
      && x.conns[c].session.Some? && x.conns[c].session.value in x.owner
      && (x.owner[x.conns[c].session.value] == c || Silent(x, x.owner[x.conns[c].session.value]))
      && FilesOver(x, x.conns[c].session.value)
  }

  ghost predicate ListedAgrees(x: Exec) {
    forall c, id :: c in x.conns && id in x.conns[c].listed ==> Dead(x, id)
  }

  ghost predicate Track(x: Exec) {
    RunningUnfinished(x) && FinishedIsDead(x) && TakingAgrees(x) && ListedAgrees(x)
  }

  ghost predicate Inv(x: Exec) {
    Core(x) && Track(x)
  }

  // ---- Core is kept ----

  /** Only states of rows differ. */
  ghost predicate SameKinds(x: Exec, y: Exec) {
    && y == x.(rows := y.rows) && y.rows.Keys == x.rows.Keys
    && forall id :: id in x.rows ==> y.rows[id].session == x.rows[id].session && y.rows[id].kind == x.rows[id].kind
  }

  lemma SameKindsKeeps(x: Exec, y: Exec)
    requires Core(x) && SameKinds(x, y)
    ensures Core(y)
  {
    SameReports(x, y);
  }

  /** Early notices stay truthful when nothing that ended is forgotten. */
  lemma SameReports(x: Exec, y: Exec)
    requires EarlyAgrees(x) && x.ended <= y.ended && x.rows.Keys <= y.rows.Keys
    requires forall id :: id in x.rows ==>
               y.rows[id].session == x.rows[id].session && y.rows[id].kind == x.rows[id].kind
    requires forall c :: c in y.conns ==>
               y.conns[c].early == {} || (c in x.conns && y.conns[c].early <= x.conns[c].early
                                          && y.conns[c].session == x.conns[c].session)
    ensures EarlyAgrees(y)
  {
    forall c, pid | c in y.conns && pid in y.conns[c].early
      ensures y.conns[c].session.Some? && Reported(y, y.conns[c].session.value, pid)
    {
      assert Reported(x, x.conns[c].session.value, pid);
      var id :| id in x.ended && id in x.rows && IsProcess(x.rows[id], x.conns[c].session.value, pid);
      assert IsProcess(y.rows[id], y.conns[c].session.value, pid);
    }
  }

  lemma SetStateCore(x: Exec, id: string, state: RowState)
    requires Core(x)
    ensures Core(SetState(x, id, state)) && SameKinds(x, SetState(x, id, state))
  {
    SameKindsKeeps(x, SetState(x, id, state));
  }

  /** A connection changes in ways that Core does not mind. */
  lemma ConnCore(x: Exec, c: nat, conn: Conn)
    requires Core(x) && c in x.conns
    requires conn.session == x.conns[c].session && conn.generation == x.conns[c].generation
    requires (x.conns[c].ready ==> conn.ready) && (conn.answered ==> conn.session.Some?)
    requires conn.processes == x.conns[c].processes || conn.processes.Items <= x.conns[c].processes.Items
    requires conn.early <= x.conns[c].early && AreFiles(x, conn.listed)
    ensures Core(SetConn(x, c, conn))
  {
    SameReports(x, SetConn(x, c, conn));
    ForgottenProcesses(x, c, conn);
  }

  lemma ForgottenProcesses(x: Exec, c: nat, conn: Conn)
    requires ProcessesAgree(x) && c in x.conns && conn.session == x.conns[c].session
    requires conn.processes == x.conns[c].processes || conn.processes.Items <= x.conns[c].processes.Items
    ensures ProcessesAgree(SetConn(x, c, conn))
  {
    var y := SetConn(x, c, conn);
    forall d, pid | d in y.conns && pid in y.conns[d].processes
      ensures y.conns[d].session.Some? && y.conns[d].processes[pid] in y.rows
      ensures IsProcess(y.rows[y.conns[d].processes[pid]], y.conns[d].session.value, pid)
    {
      if d == c {
        assert (pid, conn.processes[pid]) in conn.processes.Items;
        assert pid in x.conns[c].processes && x.conns[c].processes[pid] == conn.processes[pid];
      }
    }
  }

  lemma ForgetCore(x: Exec, c: nat, pid: string)
    requires Core(x) && c in x.conns
    ensures Core(Forget(x, c, pid))
  {
    var processes := x.conns[c].processes;
    assert (processes - {pid}).Items <= processes.Items;
    ConnCore(x, c, x.conns[c].(processes := processes - {pid}));
  }

  lemma FinishProcessCore(x: Exec, c: nat, id: string, pid: string)
    requires Core(x) && c in x.conns
    ensures Core(FinishProcess(x, c, id, pid))
  {
    SetStateCore(x, id, Finished);
    ForgetCore(Finish(x, id), c, pid);
  }

  lemma NoticedCore(x: Exec, c: nat, pid: string)
    requires Core(x) && c in x.conns && x.conns[c].session.Some?
    requires Reported(x, x.conns[c].session.value, pid)
    ensures Core(SetConn(x, c, x.conns[c].(early := x.conns[c].early + {pid})))
  {
    var y := SetConn(x, c, x.conns[c].(early := x.conns[c].early + {pid}));
    forall d, p | d in y.conns && p in y.conns[d].early
      ensures y.conns[d].session.Some? && Reported(y, y.conns[d].session.value, p)
    {
      assert Reported(x, x.conns[d].session.value, p);
    }
  }

  lemma AnsweredCore(x: Exec, id: string)
    requires Core(x)
    ensures Core(Answered(x, id))
  {
    SameReports(x, Answered(x, id));
  }

  lemma FollowCore(x: Exec, c: nat, pid: string, id: string)
    requires Core(x) && c in x.conns && x.conns[c].session.Some?
    requires id in x.rows && IsProcess(x.rows[id], x.conns[c].session.value, pid)
    ensures Core(SetConn(x, c, x.conns[c].(processes := x.conns[c].processes[pid := id])))
  {
    SameReports(x, SetConn(x, c, x.conns[c].(processes := x.conns[c].processes[pid := id])));
  }

  lemma RowAddedCore(x: Exec, id: string, row: Row)
    requires Core(x) && id !in x.rows
    requires forall other :: other in x.rows ==> !SameProcess(row, x.rows[other])
    ensures Core(x.(rows := x.rows[id := row]))
  {
    SameReports(x, x.(rows := x.rows[id := row]));
  }

  lemma RequestAddedCore(x: Exec, c: nat, id: string)
    requires Core(x) && id in x.rows && id !in x.running && id !in x.ended
    requires At(x, c, x.rows[id].session) && x.conns[c].ready
    ensures Core(x.(requests := x.requests[id := Request(c, false)]))
  {
    SameReports(x, x.(requests := x.requests[id := Request(c, false)]));
  }

  lemma BeganCore(lease: Lease, x: Exec, c: nat, id: string, kind: Kind, known: bool)
    requires Core(x) && !lease.reuse && CanBegin(lease, x, c, id, kind)
    ensures Core(Began(x, c, id, kind, known))
  {
    var row := Row(x.conns[c].session.value, kind, Active);
    var y := x.(rows := x.rows[id := row]);
    RowAddedCore(x, id, row);
    if known {
      RequestAddedCore(y, c, id);
      if kind.Process? {
        FollowCore(y.(requests := y.requests[id := Request(c, false)]), c, kind.pid, id);
      }
    }
  }

  lemma ServerCore(lease: Lease, x: Exec, a: Action)
    requires Core(x) && Enabled(lease, x, a) && (a.End? || a.Reconnect?)
    ensures Core(Do(lease, x, a))
  {
    SameReports(x, Do(lease, x, a));
  }

  lemma ForwardCore(lease: Lease, x: Exec, id: string)
    requires Core(x) && Enabled(lease, x, Forward(id))
    ensures Core(Forwarded(x, id))
  {
    SameReports(x, Forwarded(x, id));
  }

  lemma ConnectCore(lease: Lease, x: Exec, c: nat)
    requires Core(x) && Enabled(lease, x, Connect(c))
    ensures Core(Do(lease, x, Connect(c)))
  {
    SameReports(x, Do(lease, x, Connect(c)));
  }

  lemma AttachCore(lease: Lease, x: Exec, c: nat, session: string)
    requires Core(x) && Enabled(lease, x, Attach(c, session))
    ensures Core(Do(lease, x, Attach(c, session)))
  {
    var y := Do(lease, x, Attach(c, session));
    assert forall pid :: pid in x.conns[c].early ==> x.conns[c].session.Some?;
    assert x.conns[c].early == {};
    SameReports(x, y);
    forall id | id in x.requests
      ensures RequestAgrees(y, id)
    {
      assert RequestAgrees(x, id) && x.requests[id].conn != c;
    }
  }

  lemma LifeCore(lease: Lease, x: Exec, a: Action)
    requires Core(x) && Enabled(lease, x, a)
    requires a.Answer? || a.Ready? || a.ListFiles? || a.Close? || a.StartDetach?
    ensures Core(Do(lease, x, a))
  {
    ConnCore(x, a.conn, Do(lease, x, a).conns[a.conn]);
  }

  lemma ReplyCore(lease: Lease, x: Exec, a: Action)
    requires Core(x) && Enabled(lease, x, a)
    requires a.FilesystemReply? || a.StartReply? || a.StartError?
    ensures Core(Do(lease, x, a))
  {
    match a
    case FilesystemReply(id) =>
      SetStateCore(x, id, Finished);
      AnsweredCore(Finish(x, id), id);
    case StartReply(id) => AnsweredCore(x, id);
    case StartError(id) =>
      var y := FinishProcess(x, x.requests[id].conn, id, x.rows[id].kind.pid);
      FinishProcessCore(x, x.requests[id].conn, id, x.rows[id].kind.pid);
      AnsweredCore(y, id);
  }

  lemma ReportCore(lease: Lease, x: Exec, a: Action)
    requires Core(x) && Enabled(lease, x, a) && (a.Quiesced? || a.ReadQuiesced? || a.FinishEarly? || a.Reattach?)
    ensures Core(Do(lease, x, a))
  {
    match a
    case Quiesced(c, pid) =>
      if pid in x.conns[c].processes {
        FinishProcessCore(x, c, x.conns[c].processes[pid], pid);
      } else if !x.conns[c].ready {
        NoticedCore(x, c, pid);
      }
    case ReadQuiesced(c, id) => FinishProcessCore(x, c, id, x.rows[id].kind.pid);
    case FinishEarly(c, pid) => FinishProcessCore(x, c, x.conns[c].processes[pid], pid);
    case Reattach(c, id) =>
      SetStateCore(x, id, Active);
      FollowCore(SetState(x, id, Active), c, x.rows[id].kind.pid, id);
  }

  lemma RowCore(lease: Lease, x: Exec, a: Action)
    requires Core(x) && Enabled(lease, x, a) && (a.FinishOld? || a.DetachRequest? || a.DetachProcess?)
    ensures Core(Do(lease, x, a)) && SameKinds(x, Do(lease, x, a))
  {
    match a
    case FinishOld(_, id) => SetStateCore(x, id, Finished);
    case DetachRequest(id) =>
      SetStateCore(x, id, Detached);
      SetStateCore(x, id, Finished);
    case DetachProcess(c, pid) => SetStateCore(x, x.conns[c].processes[pid], Detached);
  }

  predicate Replies(a: Action) {
    a.FilesystemReply? || a.StartReply? || a.StartError?
  }

  predicate Reports(a: Action) {
    a.Quiesced? || a.ReadQuiesced? || a.FinishEarly? || a.Reattach?
  }

  predicate Rows(a: Action) {
    a.FinishOld? || a.DetachRequest? || a.DetachProcess?
  }

  predicate Lives(a: Action) {
    a.Ready? || a.Close? || a.StartDetach?
  }

  /** Whatever clients do about attaching, as long as they do not use identifiers again. */
  lemma CoreKept(lease: Lease, x: Exec, a: Action)
    requires !lease.reuse && Core(x) && Enabled(lease, x, a)
    ensures Core(Do(lease, x, a))
  {
    if Replies(a) {
      ReplyCore(lease, x, a);
    } else if Reports(a) {
      ReportCore(lease, x, a);
    } else if Rows(a) {
      RowCore(lease, x, a);
    } else if Lives(a) || a.Answer? || a.ListFiles? {
      LifeCore(lease, x, a);
    } else if a.Begin? {
      BeganCore(lease, x, a.conn, a.id, a.kind, a.known);
    } else if a.Attach? {
      AttachCore(lease, x, a.conn, a.session);
    } else if a.Forward? {
      ForwardCore(lease, x, a.id);
    } else if a.Connect? {
      ConnectCore(lease, x, a.conn);
    } else {
      ServerCore(lease, x, a);
    }
  }

  // ---- Track is kept ----

  /** Finishing the row of a dead request. */
  lemma FinishTracks(x: Exec, id: string)
    requires Core(x) && Track(x) && Dead(x, id)
    ensures Track(Finish(x, id))
  {
    SetStateFrame(x, id, Finished);
  }

  /** Changing the state of a row changes nothing about who is served. */
  lemma SetStateFrame(x: Exec, id: string, state: RowState)
    ensures var y := SetState(x, id, state);
      && (forall i :: Dead(x, i) ==> Dead(y, i)) && (forall d :: Silent(x, d) ==> Silent(y, d))
      && (forall d :: Taking(y, d) ==> Taking(x, d))
      && (forall session :: FilesOver(x, session) ==> FilesOver(y, session))
  {
  }

  lemma SetStateTracks(x: Exec, id: string, state: RowState)
    requires Core(x) && Track(x) && state != Finished
    ensures Track(SetState(x, id, state))
  {
    SetStateFrame(x, id, state);
  }

  /** What has ended is dead. */
  lemma EndedIsDead(x: Exec, id: string)
    requires Core(x) && id in x.ended
    ensures Dead(x, id)
  {
    assert id in x.requests ==> RequestAgrees(x, id);
  }

  lemma ReportedIsFollowed(x: Exec, c: nat, pid: string)
    requires Core(x) && c in x.conns && pid in x.conns[c].processes
    requires x.conns[c].session.Some? && Reported(x, x.conns[c].session.value, pid)
    ensures x.conns[c].processes[pid] in x.ended
  {
    var session := x.conns[c].session.value;
    var id :| id in x.ended && id in x.rows && IsProcess(x.rows[id], session, pid);
    assert SameProcess(x.rows[id], x.rows[x.conns[c].processes[pid]]);
  }

  /** A connection changes in nothing that Track looks at, or only stops being open. */
  lemma ConnTracks(x: Exec, c: nat, conn: Conn)
    requires Track(x) && c in x.conns
    requires conn == x.conns[c].(life := conn.life, ready := conn.ready, processes := conn.processes,
                                 early := conn.early)
    requires (x.conns[c].life != Open ==> conn.life != Open) && (x.conns[c].ready ==> conn.ready)
    ensures Track(SetConn(x, c, conn))
  {
    var y := SetConn(x, c, conn);
    assert forall id :: Dead(x, id) ==> Dead(y, id);
    assert forall d :: Silent(x, d) ==> Silent(y, d);
    assert forall d :: Taking(y, d) ==> Taking(x, d);
  }

  lemma FinishProcessTracks(x: Exec, c: nat, id: string, pid: string)
    requires Core(x) && Track(x) && c in x.conns && Dead(x, id)
    ensures Track(FinishProcess(x, c, id, pid))
  {
    FinishTracks(x, id);
    ConnTracks(Finish(x, id), c, x.conns[c].(processes := x.conns[c].processes - {pid}));
  }

  lemma AnsweredTracks(x: Exec, id: string)
    requires Track(x)
    ensures Track(Answered(x, id))
  {
    var y := Answered(x, id);
    assert forall i :: Dead(x, i) ==> Dead(y, i);
    assert forall d :: Silent(x, d) ==> Silent(y, d);
  }

  lemma RowAddedTracks(x: Exec, id: string, row: Row)
    requires Core(x) && Track(x) && id !in x.rows && row.state == Active
    ensures Track(x.(rows := x.rows[id := row]))
  {
    var y := x.(rows := x.rows[id := row]);
    assert id !in x.requests by {
      assert id in x.requests ==> RequestAgrees(x, id);
    }
    assert forall i :: Dead(x, i) ==> Dead(y, i);
  }

  lemma RequestAddedTracks(x: Exec, c: nat, id: string)
    requires Core(x) && Track(x) && id in x.rows && x.rows[id].state == Active && id !in x.requests
    requires c in x.conns && x.conns[c].generation == x.generation
    requires forall d :: d in x.conns ==> id !in x.conns[d].listed
    ensures Track(x.(requests := x.requests[id := Request(c, false)]))
  {
    var y := x.(requests := x.requests[id := Request(c, false)]);
    assert forall i :: i != id && Dead(x, i) ==> Dead(y, i);
    assert forall d :: Silent(x, d) ==> Silent(y, d);
  }

  lemma BeganTracks(lease: Lease, x: Exec, c: nat, id: string, kind: Kind, known: bool)
    requires Core(x) && Track(x) && !lease.reuse && CanBegin(lease, x, c, id, kind)
    ensures Track(Began(x, c, id, kind, known))
  {
    var row := Row(x.conns[c].session.value, kind, Active);
    var y := x.(rows := x.rows[id := row]);
    RowAddedTracks(x, id, row);
    RowAddedCore(x, id, row);
    if known {
      assert id !in x.requests by {
        assert id in x.requests ==> RequestAgrees(x, id);
      }
      assert forall d :: d in x.conns && id in x.conns[d].listed ==> Dead(x, id);
      RequestAddedTracks(y, c, id);
      if kind.Process? {
        var z := y.(requests := y.requests[id := Request(c, false)]);
        ConnTracks(z, c, z.conns[c].(processes := z.conns[c].processes[kind.pid := id]));
      }
    }
  }

  /** Only a request that may still run can be forwarded to effect, so nothing finished, and
      no file operation of a session that is being taken over, starts to run. */
  lemma ForwardTracks(lease: Lease, x: Exec, id: string)
    requires Core(x) && Track(x) && Enabled(lease, x, Forward(id))
    ensures Track(Forwarded(x, id))
  {
    var c, session, y := x.requests[id].conn, x.rows[id].session, Forwarded(x, id);
    assert RequestAgrees(x, id);
    if Serves(x, session, c) {
      assert !Dead(x, id);
    }
    assert forall i :: Dead(x, i) ==> Dead(y, i);
    assert forall d :: Silent(x, d) ==> Silent(y, d);
    forall d | Taking(y, d)
      ensures FilesOver(y, y.conns[d].session.value)
    {
      assert Taking(x, d) && d != c;
    }
  }

  lemma AttachTracks(lease: Lease, x: Exec, c: nat, session: string)
    requires Core(x) && Track(x) && !lease.overlap && Enabled(lease, x, Attach(c, session))
    ensures Track(Do(lease, x, Attach(c, session)))
  {
    var y := Do(lease, x, Attach(c, session));
    forall id | id in x.requests
      ensures x.requests[id].conn != c
    {
      assert RequestAgrees(x, id);
    }
    assert forall i :: Dead(x, i) ==> Dead(y, i);
    assert forall d :: Silent(x, d) ==> Silent(y, d);
    forall d | Taking(y, d)
      ensures y.conns[d].session.Some? && y.conns[d].session.value in y.owner
      ensures y.owner[y.conns[d].session.value] == d || Silent(y, y.owner[y.conns[d].session.value])
      ensures FilesOver(y, y.conns[d].session.value)
    {
      assert d != c && Taking(x, d);
      if x.conns[d].session.value == session {
        assert x.conns[c].generation < x.generation;
        assert Silent(y, c);
      }
    }
  }

  lemma ListFilesTracks(lease: Lease, x: Exec, c: nat)
    requires Core(x) && Track(x) && Enabled(lease, x, ListFiles(c))
    ensures Track(Do(lease, x, ListFiles(c)))
  {
    var y := Do(lease, x, ListFiles(c));
    assert Taking(x, c);
    forall id | id in OpenFiles(x, x.conns[c].session.value)
      ensures Dead(x, id)
    {
      if id in x.requests && !x.requests[id].forwarded {
        assert RequestAgrees(x, id);
      }
    }
    assert forall i :: Dead(x, i) ==> Dead(y, i);
    assert forall d :: Silent(x, d) ==> Silent(y, d);
    assert forall d :: Taking(y, d) ==> Taking(x, d);
  }

  lemma AnswerTracks(lease: Lease, x: Exec, c: nat)
    requires Core(x) && Track(x) && Enabled(lease, x, Answer(c))
    ensures Track(Do(lease, x, Answer(c)))
  {
    var y := Do(lease, x, Answer(c));
    assert forall i :: Dead(x, i) ==> Dead(y, i);
    assert forall d :: Silent(x, d) ==> Silent(y, d);
    assert forall d :: d != c && Taking(y, d) ==> Taking(x, d);
  }

  lemma ServerTracks(lease: Lease, x: Exec, a: Action)
    requires Core(x) && Track(x) && Enabled(lease, x, a) && (a.End? || a.Connect? || a.Reconnect?)
    ensures Track(Do(lease, x, a))
  {
    var y := Do(lease, x, a);
    assert forall i :: Dead(x, i) ==> Dead(y, i);
    assert forall d :: Silent(x, d) ==> Silent(y, d);
    assert forall d :: Taking(y, d) ==> Taking(x, d);
  }

  lemma ReplyTracks(lease: Lease, x: Exec, a: Action)
    requires Core(x) && Track(x) && Enabled(lease, x, a)
    requires a.FilesystemReply? || a.StartReply? || a.StartError?
    ensures Track(Do(lease, x, a))
  {
    match a
    case FilesystemReply(id) =>
      FinishTracks(x, id);
      AnsweredTracks(Finish(x, id), id);
    case StartReply(id) => AnsweredTracks(x, id);
    case StartError(id) =>
      var y := FinishProcess(x, x.requests[id].conn, id, x.rows[id].kind.pid);
      FinishProcessTracks(x, x.requests[id].conn, id, x.rows[id].kind.pid);
      AnsweredTracks(y, id);
  }

  lemma ReportTracks(lease: Lease, x: Exec, a: Action)
    requires Core(x) && Track(x) && Enabled(lease, x, a)
    requires a.Quiesced? || a.ReadQuiesced? || a.FinishEarly? || a.Reattach?
    ensures Track(Do(lease, x, a))
  {
    match a
    case Quiesced(c, pid) =>
      if pid in x.conns[c].processes {
        ReportedIsFollowed(x, c, pid);
        EndedIsDead(x, x.conns[c].processes[pid]);
        FinishProcessTracks(x, c, x.conns[c].processes[pid], pid);
      } else if !x.conns[c].ready {
        ConnTracks(x, c, x.conns[c].(early := x.conns[c].early + {pid}));
      }
    case ReadQuiesced(c, id) =>
      EndedIsDead(x, id);
      FinishProcessTracks(x, c, id, x.rows[id].kind.pid);
    case FinishEarly(c, pid) =>
      ReportedIsFollowed(x, c, pid);
      EndedIsDead(x, x.conns[c].processes[pid]);
      FinishProcessTracks(x, c, x.conns[c].processes[pid], pid);
    case Reattach(c, id) =>
      SetStateTracks(x, id, Active);
      var y := SetState(x, id, Active);
      ConnTracks(y, c, y.conns[c].(processes := y.conns[c].processes[x.rows[id].kind.pid := id]));
  }

  lemma RowTracks(lease: Lease, x: Exec, a: Action)
    requires Core(x) && Track(x) && Enabled(lease, x, a) && (a.FinishOld? || a.DetachRequest? || a.DetachProcess?)
    ensures Track(Do(lease, x, a))
  {
    match a
    case FinishOld(_, id) => FinishTracks(x, id);
    case DetachRequest(id) =>
      assert RequestAgrees(x, id);
      if x.requests[id].forwarded {
        SetStateTracks(x, id, Detached);
      } else {
        FinishTracks(x, id);
      }
    case DetachProcess(c, pid) => SetStateTracks(x, x.conns[c].processes[pid], Detached);
  }

  lemma LifeTracks(lease: Lease, x: Exec, a: Action)
    requires Core(x) && Track(x) && Enabled(lease, x, a) && (a.Ready? || a.Close? || a.StartDetach?)
    ensures Track(Do(lease, x, a))
  {
    ConnTracks(x, a.conn, Do(lease, x, a).conns[a.conn]);
  }

  lemma TrackKept(lease: Lease, x: Exec, a: Action)
    requires !lease.reuse && !lease.overlap && Core(x) && Track(x) && Enabled(lease, x, a)
    ensures Track(Do(lease, x, a))
  {
    if Replies(a) {
      ReplyTracks(lease, x, a);
    } else if Reports(a) {
      ReportTracks(lease, x, a);
    } else if Rows(a) {
      RowTracks(lease, x, a);
    } else if Lives(a) {
      LifeTracks(lease, x, a);
    } else {
      OtherTracks(lease, x, a);
    }
  }

  lemma OtherTracks(lease: Lease, x: Exec, a: Action)
    requires !lease.reuse && !lease.overlap && Core(x) && Track(x) && Enabled(lease, x, a)
    requires !Replies(a) && !Reports(a) && !Rows(a) && !Lives(a)
    ensures Track(Do(lease, x, a))
  {
    if a.Begin? {
      BeganTracks(lease, x, a.conn, a.id, a.kind, a.known);
    } else if a.Forward? {
      ForwardTracks(lease, x, a.id);
    } else if a.Attach? {
      AttachTracks(lease, x, a.conn, a.session);
    } else if a.ListFiles? {
      ListFilesTracks(lease, x, a.conn);
    } else if a.Answer? {
      AnswerTracks(lease, x, a.conn);
    } else {
      ServerTracks(lease, x, a);
    }
  }

  lemma DoKeeps(lease: Lease, x: Exec, a: Action)
    requires !lease.reuse && !lease.overlap && Inv(x) && Enabled(lease, x, a)
    ensures Inv(Do(lease, x, a))
  {
    CoreKept(lease, x, a);
    TrackKept(lease, x, a);
  }
}
