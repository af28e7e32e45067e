/** Which unfinished rows of the ledger can still be finished.  A row whose begin was committed
    with the reply lost belongs to no request; if it is a process's, nothing ever finishes it,
    and the lease is never quiescent again. */
module StrandedRows {
  import opened Interactions
  import opened Quiescence
  import opened QuiescenceSafety
  import opened Wrappers

  /** An unfinished process row that no connection waits for and that the server has never
      accepted. */
  predicate Stranded(x: Exec, id: string) {
    && id in x.rows && x.rows[id].kind.Process? && x.rows[id].state != Finished
    && id !in x.requests && id !in x.running && id !in x.ended
  }

  // ---- A stranded row stays ----

  /** No truthful report is about a stranded row. */
  lemma NeverReported(x: Exec, c: nat, pid: string, id: string)
    requires Core(x) && Stranded(x, id) && c in x.conns && x.conns[c].session.Some?
    requires Reported(x, x.conns[c].session.value, pid) && pid in x.conns[c].processes
    ensures x.conns[c].processes[pid] != id
  {
    ReportedIsFollowed(x, c, pid);
  }

  lemma SetStateStrands(x: Exec, other: string, state: RowState, id: string)
    requires Stranded(x, id) && (other == id ==> state != Finished)
    ensures Stranded(SetState(x, other, state), id) && SetState(x, other, state).rows[id].kind == x.rows[id].kind
  {
  }

  lemma ReportStrands(lease: Lease, x: Exec, a: Action, id: string)
    requires Core(x) && Enabled(lease, x, a) && Stranded(x, id) && Reports(a)
    ensures Stranded(Do(lease, x, a), id) && Do(lease, x, a).rows[id].kind == x.rows[id].kind
  {
    match a
    case Quiesced(c, pid) =>
      if pid in x.conns[c].processes {
        NeverReported(x, c, pid, id);
        SetStateStrands(x, x.conns[c].processes[pid], Finished, id);
      }
    case FinishEarly(c, pid) =>
      NeverReported(x, c, pid, id);
      SetStateStrands(x, x.conns[c].processes[pid], Finished, id);
    case ReadQuiesced(_, other) => SetStateStrands(x, other, Finished, id);
    case Reattach(_, other) => SetStateStrands(x, other, Active, id);
  }

  lemma RowStrands(lease: Lease, x: Exec, a: Action, id: string)
    requires Core(x) && Enabled(lease, x, a) && Stranded(x, id) && Rows(a)
    ensures Stranded(Do(lease, x, a), id) && Do(lease, x, a).rows[id].kind == x.rows[id].kind
  {
    match a
    case DetachProcess(c, pid) => SetStateStrands(x, x.conns[c].processes[pid], Detached, id);
    case FinishOld(c, other) =>
      assert AreFiles(x, x.conns[c].listed);
      SetStateStrands(x, other, Finished, id);
    case DetachRequest(other) =>
      SetStateStrands(x, other, Finished, id);
      SetStateStrands(x, other, Detached, id);
  }

  lemma ReplyStrands(lease: Lease, x: Exec, a: Action, id: string)
    requires Enabled(lease, x, a) && Stranded(x, id) && Replies(a)
    ensures Stranded(Do(lease, x, a), id) && Do(lease, x, a).rows[id].kind == x.rows[id].kind
  {
    SetStateStrands(x, a.id, Finished, id);
  }

  lemma OtherStrands(lease: Lease, x: Exec, a: Action, id: string)
    requires Core(x) && Enabled(lease, x, a) && Stranded(x, id) && !Reports(a) && !Replies(a) && !Rows(a)
    ensures Stranded(Do(lease, x, a), id) && Do(lease, x, a).rows[id].kind == x.rows[id].kind
  {
  }

  lemma StrandedStays(lease: Lease, x: Exec, a: Action, id: string)
    requires Core(x) && Enabled(lease, x, a) && Stranded(x, id)
    ensures Stranded(Do(lease, x, a), id) && Do(lease, x, a).rows[id].kind == x.rows[id].kind
  {
    if Reports(a) {
      ReportStrands(lease, x, a, id);
    } else if Replies(a) {
      ReplyStrands(lease, x, a, id);
    } else if Rows(a) {
      RowStrands(lease, x, a, id);
    } else {
      OtherStrands(lease, x, a, id);
    }
  }

  /** Without reuse, a stranded row is stranded for ever. */
  lemma {:induction false} NeverFinishes(lease: Lease, x: Exec, actions: seq<Action>, y: Exec, id: string)
    requires !lease.reuse && Core(x) && Stranded(x, id) && Run(lease, x, actions, y)
    ensures Stranded(y, id) && y.rows[id].kind == x.rows[id].kind
    decreases |actions|
  {
    if actions != [] {
      CoreKept(lease, x, actions[0]);
      StrandedStays(lease, x, actions[0], id);
      NeverFinishes(lease, Do(lease, x, actions[0]), actions[1..], y, id);
    }
  }

  /** A process row begun with the reply lost is stranded at once, and unless it is the
      code-mode process of the moment, the lease is never quiescent again. */
  lemma LostBeginStrands(lease: Lease, x: Exec, c: nat, id: string, pid: string, actions: seq<Action>, y: Exec)
    requires !lease.reuse && Core(x) && Enabled(lease, x, Begin(c, id, Process(pid), false))
    requires Run(lease, Do(lease, x, Begin(c, id, Process(pid), false)), actions, y)
    ensures Quiet(lease, y) ==> y.generation in lease.codeMode && pid == lease.codeMode[y.generation]
  {
    var begun := Do(lease, x, Begin(c, id, Process(pid), false));
    CoreKept(lease, x, Begin(c, id, Process(pid), false));
    assert Stranded(begun, id) by {
      assert id in x.requests ==> RequestAgrees(x, id);
    }
    NeverFinishes(lease, begun, actions, y, id);
  }

  // ---- Every other row can be finished ----

  ghost predicate Finishable(lease: Lease, x: Exec, id: string) {
    exists actions, y :: Run(lease, x, actions, y) && id in y.rows && y.rows[id].state == Finished
  }

  lemma FinishedBy(lease: Lease, x: Exec, a: Action, id: string)
    requires Enabled(lease, x, a) && id in Do(lease, x, a).rows && Do(lease, x, a).rows[id].state == Finished
    ensures Finishable(lease, x, id)
  {
    RunOne(lease, x, a);
  }

  /** What can be finished after a step can be finished. */
  lemma FinishableAfter(lease: Lease, x: Exec, a: Action, id: string)
    requires Enabled(lease, x, a) && Finishable(lease, Do(lease, x, a), id)
    ensures Finishable(lease, x, id)
  {
    var actions, y :| Run(lease, Do(lease, x, a), actions, y) && id in y.rows && y.rows[id].state == Finished;
    RunOne(lease, x, a);
    RunOn(lease, x, [a], Do(lease, x, a), actions, y);
  }

  /** A request that was never forwarded is finished when its connection detaches. */
  lemma DetachingFinishable(lease: Lease, x: Exec, id: string)
    requires id in x.requests && !x.requests[id].forwarded && id in x.rows
    requires x.requests[id].conn in x.conns && x.conns[x.requests[id].conn].life == Detaching
    ensures Finishable(lease, x, id)
  {
    FinishedBy(lease, x, DetachRequest(id), id);
  }

  lemma ClosedFinishable(lease: Lease, x: Exec, id: string)
    requires id in x.requests && !x.requests[id].forwarded && id in x.rows
    requires x.requests[id].conn in x.conns && x.conns[x.requests[id].conn].life == Closed
    ensures Finishable(lease, x, id)
  {
    var c := x.requests[id].conn;
    DetachingFinishable(lease, Do(lease, x, StartDetach(c)), id);
    FinishableAfter(lease, x, StartDetach(c), id);
  }

  lemma UnforwardedFinishable(lease: Lease, x: Exec, id: string)
    requires Core(x) && id in x.requests && !x.requests[id].forwarded
    ensures Finishable(lease, x, id)
  {
    assert RequestAgrees(x, id);
    var c := x.requests[id].conn;
    match x.conns[c].life
    case Detaching => DetachingFinishable(lease, x, id);
    case Closed => ClosedFinishable(lease, x, id);
    case Open =>
      ClosedFinishable(lease, Do(lease, x, Close(c)), id);
      FinishableAfter(lease, x, Close(c), id);
  }

  /** A forwarded one is finished by its reply, once the server is done with it. */
  lemma ForwardedFinishable(lease: Lease, x: Exec, id: string)
    requires Core(x) && id in x.requests && x.requests[id].forwarded
    ensures Finishable(lease, x, id)
  {
    assert RequestAgrees(x, id);
    if id in x.running {
      var y := Do(lease, x, End(id));
      FinishedBy(lease, y, if x.rows[id].kind.Process? then StartError(id) else FilesystemReply(id), id);
      FinishableAfter(lease, x, End(id), id);
    } else {
      FinishedBy(lease, x, if x.rows[id].kind.Process? then StartError(id) else FilesystemReply(id), id);
    }
  }

  lemma {:induction false} NewConnection(conns: map<nat, Conn>, from: nat) returns (c: nat)
    ensures c !in conns
    decreases |set d | d in conns && d >= from|
  {
    c := from;
    if from in conns {
      var more, fewer := set d | d in conns && d >= from, set d | d in conns && d >= from + 1;
      assert fewer <= more - {from};
      Smaller(fewer, more, from);
      c := NewConnection(conns, from + 1);
    }
  }

  lemma Smaller(fewer: set<nat>, more: set<nat>, d: nat)
    requires fewer <= more - {d} && d in more
    ensures |fewer| < |more|
  {
    var rest := more - {d};
    assert |rest| == |more| - 1;
    NotLarger(fewer, rest);
  }

  lemma {:induction false} NotLarger(a: set<nat>, b: set<nat>)
    requires a <= b
    ensures |a| <= |b|
    decreases |a|
  {
    if a != {} {
      var d :| d in a;
      NotLarger(a - {d}, b - {d});
    }
  }

  /** After a reconnect a new connection can always attach to the session. */
  lemma Attached(lease: Lease, x: Exec, session: string) returns (actions: seq<Action>, y: Exec, c: nat)
    requires Core(x)
    ensures Run(lease, x, actions, y) && At(y, c, session) && y.rows == x.rows
    ensures y.running == x.running && y.ended == x.ended
    ensures session in y.owner && y.owner[session] == c && y.conns[c].generation == y.generation
    ensures !y.conns[c].answered && !y.conns[c].ready
  {
    c := NewConnection(x.conns, 0);
    var x1 := Do(lease, x, Reconnect);
    var x2 := Do(lease, x1, Connect(c));
    assert Enabled(lease, x2, Attach(c, session));
    y := Do(lease, x2, Attach(c, session));
    RunOne(lease, x, Reconnect);
    RunOne(lease, x1, Connect(c));
    RunOne(lease, x2, Attach(c, session));
    RunOn(lease, x, [Reconnect], x1, [Connect(c)], x2);
    RunOn(lease, x, [Reconnect] + [Connect(c)], x2, [Attach(c, session)], y);
    actions := [Reconnect] + [Connect(c)] + [Attach(c, session)];
  }

  lemma FinishableThen(lease: Lease, x: Exec, actions: seq<Action>, y: Exec, id: string)
    requires Run(lease, x, actions, y) && Finishable(lease, y, id)
    ensures Finishable(lease, x, id)
  {
    var more, z :| Run(lease, y, more, z) && id in z.rows && z.rows[id].state == Finished;
    RunOn(lease, x, actions, y, more, z);
  }

  /** A process the server has accepted is finished by a read that sees the end. */
  lemma AcceptedFinishable(lease: Lease, x: Exec, id: string)
    requires Core(x) && id in x.rows && x.rows[id].kind.Process? && (id in x.running || id in x.ended)
    ensures Finishable(lease, x, id)
  {
    var actions, y, c := Attached(lease, x, x.rows[id].session);
    if id in y.running {
      FinishedBy(lease, Do(lease, y, End(id)), ReadQuiesced(c, id), id);
      FinishableAfter(lease, y, End(id), id);
    } else {
      FinishedBy(lease, y, ReadQuiesced(c, id), id);
    }
    FinishableThen(lease, x, actions, y, id);
  }

  /** The server gets done with everything it is working on. */
  lemma {:induction false} AllEnd(lease: Lease, x: Exec) returns (actions: seq<Action>, y: Exec)
    ensures Run(lease, x, actions, y) && y == x.(running := {}, ended := y.ended)
    decreases |x.running|
  {
    if x.running == {} {
      actions, y := [], x;
    } else {
      var id :| id in x.running;
      var next := Do(lease, x, End(id));
      var rest;
      rest, y := AllEnd(lease, next);
      RunOne(lease, x, End(id));
      RunOn(lease, x, [End(id)], next, rest, y);
      actions := [End(id)] + rest;
    }
  }

  /** A file operation is finished by a later resume. */
  lemma FileFinishable(lease: Lease, x: Exec, id: string)
    requires Core(x) && id in x.rows && x.rows[id].kind.Filesystem? && x.rows[id].state != Finished
    ensures Finishable(lease, x, id)
  {
    var first, y, c := Attached(lease, x, x.rows[id].session);
    var second, z := AllEnd(lease, y);
    RunOn(lease, x, first, y, second, z);
    var answered := Do(lease, z, Answer(c));
    var listed := Do(lease, answered, ListFiles(c));
    FinishedBy(lease, listed, FinishOld(c, id), id);
    FinishableAfter(lease, answered, ListFiles(c), id);
    FinishableAfter(lease, z, Answer(c), id);
    FinishableThen(lease, x, first + second, z, id);
  }

  /** Without reuse, an unfinished row can still be finished, by some continuation, exactly
      if it is not stranded. */
  lemma FinishableExactly(lease: Lease, x: Exec, id: string)
    requires !lease.reuse && Core(x) && id in x.rows && x.rows[id].state != Finished
    ensures Finishable(lease, x, id) <==> !Stranded(x, id)
  {
    if Stranded(x, id) {
      if Finishable(lease, x, id) {
        var actions, y :| Run(lease, x, actions, y) && id in y.rows && y.rows[id].state == Finished;
        NeverFinishes(lease, x, actions, y, id);
        assert false;
      }
    } else if id in x.requests {
      if x.requests[id].forwarded {
        ForwardedFinishable(lease, x, id);
      } else {
        UnforwardedFinishable(lease, x, id);
      }
    } else if x.rows[id].kind.Filesystem? {
      FileFinishable(lease, x, id);
    } else {
      AcceptedFinishable(lease, x, id);
    }
  }
}
