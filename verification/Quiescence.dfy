/** Commands and checkpoints on one lease: gateway connections journal each mutating request
    in the interaction ledger before they forward it to the sandbox's exec server, and a
    checkpoint, which holds the lease lock, refuses to run while a row is unfinished.

    Every ledger operation is one transaction under the lease lock.  Anything else, such as
    forwarding, the server's work, or a connection breaking off, can happen at any time.
    A connection that resumes a session works through the ledger in many transactions after
    the server's answer has arrived, and goes on with that when its socket has broken.
    The exec server is trusted to report truthfully, to serve a session only for the
    connection that attached to it last, and to answer that connection only when the
    session's earlier file operations are over. */
module Quiescence {
  import opened Interactions
  import opened Wrappers

  datatype Row = Row(session: string, kind: Kind, state: RowState)

  /** A journalled request as its connection remembers it. */
  datatype Request = Request(conn: nat, forwarded: bool)

  datatype Life = Open | Closed | Detaching

  /** One gateway connection: the generation it was admitted at, the session it attached to,
      whether the server has answered its initialize, whether that answer has been worked
      through and delivered, the processes it follows, the quiesced notices that came too
      early and the file operations it found to finish. */
  datatype Conn = Conn(life: Life, generation: nat, session: Option<string>, answered: bool, ready: bool,
                       processes: map<string, string>, early: set<string>, listed: set<string>)

  /** `generation` is the lease's; `owner` is the connection for which the server serves a
      session; `running` and `ended` are the server's truth about the requests it accepted. */
  datatype Exec = Exec(generation: nat, rows: map<string, Row>, requests: map<string, Request>,
                       conns: map<nat, Conn>, owner: map<string, nat>, running: set<string>, ended: set<string>)

  /** What is fixed about the lease: the process that hosts code mode at each generation that
      has one, whether clients may use a process identifier twice within a session, and whether they
      may attach to a session again, at the same generation, before the answer to the attach
      before has been delivered. */
  datatype Lease = Lease(codeMode: map<nat, string>, reuse: bool, overlap: bool)

  // ---- Ledger rows ----

  function SetState(x: Exec, id: string, state: RowState): Exec {
    if id in x.rows && x.rows[id].state != Finished
    then x.(rows := x.rows[id := x.rows[id].(state := state)]) else x
  }

  function Finish(x: Exec, id: string): Exec {
    SetState(x, id, Finished)
  }

  predicate IsProcess(row: Row, session: string, pid: string) {
    row.session == session && row.kind == Process(pid)
  }

  predicate Exempt(lease: Lease, generation: nat, row: Row) {
    generation in lease.codeMode && row.kind == Process(lease.codeMode[generation])
  }

  /** The quiescence check: every row is finished or belongs to the code-mode process. */
  predicate Quiet(lease: Lease, x: Exec) {
    forall id :: id in x.rows ==> x.rows[id].state == Finished || Exempt(lease, x.generation, x.rows[id])
  }

  // ---- What connections and the server do ----

  datatype Action =
    | Reconnect | Connect(conn: nat) | Attach(conn: nat, session: string) | Answer(conn: nat) | Ready(conn: nat)
    | Begin(conn: nat, id: string, kind: Kind, known: bool)
    | Forward(id: string) | End(id: string)
    | FilesystemReply(id: string) | StartReply(id: string) | StartError(id: string)
    | Quiesced(conn: nat, pid: string) | ReadQuiesced(conn: nat, id: string)
    | Reattach(conn: nat, id: string) | FinishEarly(conn: nat, pid: string)
    | ListFiles(conn: nat) | FinishOld(conn: nat, id: string)
    | Close(conn: nat) | StartDetach(conn: nat)
    | DetachRequest(id: string) | DetachProcess(conn: nat, pid: string)

  /** The actions that are transactions under the lease lock; an early quiesced notice is only
      noted. */
  predicate UsesLedger(x: Exec, a: Action) {
    a.Reconnect? || a.ListFiles? || a.Begin? || a.FilesystemReply? || a.StartError? || a.ReadQuiesced? || a.Reattach?
    || a.FinishEarly? || a.FinishOld? || a.DetachRequest? || a.DetachProcess?
    || (a.Quiesced? && a.conn in x.conns && a.pid in x.conns[a.conn].processes)
  }

  predicate At(x: Exec, c: nat, session: string) {
    c in x.conns && x.conns[c].session == Some(session)
  }

  /** A connection of the same generation is attached to the session, and its answer has not
      been delivered. */
  predicate Pending(x: Exec, session: string, generation: nat) {
    exists c :: c in x.conns && x.conns[c].session == Some(session) && !x.conns[c].ready
                && x.conns[c].generation == generation
  }

  function OpenFiles(x: Exec, session: string): set<string> {
    set id | id in x.rows && x.rows[id].session == session && x.rows[id].kind.Filesystem?
             && x.rows[id].state != Finished
  }

  /** The server works on no file operation of the session. */
  ghost predicate FilesOver(x: Exec, session: string) {
    forall id :: id in x.running && id in x.rows && x.rows[id].session == session ==> !x.rows[id].kind.Filesystem?
  }

  function SetConn(x: Exec, c: nat, conn: Conn): Exec {
    x.(conns := x.conns[c := conn])
  }

  /** The process with this identifier ran in the session and is over. */
  ghost predicate Reported(x: Exec, session: string, pid: string) {
    exists id :: id in x.ended && id in x.rows && IsProcess(x.rows[id], session, pid)
  }

  predicate CanBegin(lease: Lease, x: Exec, c: nat, id: string, kind: Kind) {
    && c in x.conns && x.conns[c].ready && x.conns[c].session.Some? && x.conns[c].life != Detaching
    && x.conns[c].generation == x.generation && id !in x.rows
    && (kind.Process? ==>
          && kind.pid !in x.conns[c].processes
          && forall other :: other in x.rows && IsProcess(x.rows[other], x.conns[c].session.value, kind.pid) ==>
                               lease.reuse && x.rows[other].state == Finished)
  }

  function Began(x: Exec, c: nat, id: string, kind: Kind, known: bool): Exec
    requires c in x.conns && x.conns[c].session.Some?
  {
    var y := x.(rows := x.rows[id := Row(x.conns[c].session.value, kind, Active)]);
    if !known then y
    else
      var z := y.(requests := y.requests[id := Request(c, false)]);
      if kind.Filesystem? then z
      else SetConn(z, c, z.conns[c].(processes := z.conns[c].processes[kind.pid := id]))
  }

  function Forwarded(x: Exec, id: string): Exec
    requires id in x.requests && id in x.rows
  {
    var c := x.requests[id].conn;
    var session := x.rows[id].session;
    var y := x.(requests := x.requests[id := Request(c, true)]);
    if session in x.owner && x.owner[session] == c then y.(running := y.running + {id}) else y
  }

  function Answered(x: Exec, id: string): Exec {
    x.(requests := x.requests - {id})
  }

  function Forget(x: Exec, c: nat, pid: string): Exec
    requires c in x.conns
  {
    SetConn(x, c, x.conns[c].(processes := x.conns[c].processes - {pid}))
  }

  function FinishProcess(x: Exec, c: nat, id: string, pid: string): Exec
    requires c in x.conns
  {
    Forget(Finish(x, id), c, pid)
  }

  predicate ForwardedKind(x: Exec, id: string, process: bool) {
    && id in x.requests && id in x.rows && x.requests[id].forwarded
    && x.rows[id].kind.Process? == process && x.requests[id].conn in x.conns
  }

  ghost predicate Enabled(lease: Lease, x: Exec, a: Action) {
    match a
    case Reconnect => true
    case Connect(c) => c !in x.conns
    case Attach(c, session) =>
      && c in x.conns && x.conns[c].session.None?
      && (Pending(x, session, x.conns[c].generation) ==> lease.overlap)
    case Answer(c) =>
      && c in x.conns && x.conns[c].session.Some? && !x.conns[c].answered
      && x.conns[c].session.value in x.owner && x.owner[x.conns[c].session.value] == c
      && FilesOver(x, x.conns[c].session.value)
    case Ready(c) => c in x.conns && x.conns[c].answered && !x.conns[c].ready
    case Begin(c, id, kind, _) => CanBegin(lease, x, c, id, kind)
    case Forward(id) =>
      && id in x.requests && id in x.rows && !x.requests[id].forwarded
      && x.requests[id].conn in x.conns && x.conns[x.requests[id].conn].life == Open
    case End(id) => id in x.running
    case FilesystemReply(id) => ForwardedKind(x, id, false) && id !in x.running
    case StartReply(id) => ForwardedKind(x, id, true)
    case StartError(id) => ForwardedKind(x, id, true) && id !in x.running
    case Quiesced(c, pid) =>
      c in x.conns && x.conns[c].session.Some? && Reported(x, x.conns[c].session.value, pid)
    case ReadQuiesced(c, id) =>
      id in x.rows && id in x.ended && x.rows[id].kind.Process? && At(x, c, x.rows[id].session)
    case Reattach(c, id) =>
      && id in x.rows && x.rows[id].state != Finished && x.rows[id].kind.Process?
      && At(x, c, x.rows[id].session) && x.conns[c].answered && !x.conns[c].ready
      && x.conns[c].generation == x.generation && x.rows[id].kind.pid !in x.conns[c].processes
    case FinishEarly(c, pid) =>
      c in x.conns && !x.conns[c].ready && pid in x.conns[c].early && pid in x.conns[c].processes
    case ListFiles(c) =>
      c in x.conns && x.conns[c].answered && !x.conns[c].ready && x.conns[c].generation == x.generation
    case FinishOld(c, id) => c in x.conns && !x.conns[c].ready && id in x.conns[c].listed
    case Close(c) => c in x.conns && x.conns[c].life == Open
    case StartDetach(c) => c in x.conns && x.conns[c].life == Closed
    case DetachRequest(id) =>
      id in x.requests && x.requests[id].conn in x.conns && x.conns[x.requests[id].conn].life == Detaching
    case DetachProcess(c, pid) => c in x.conns && x.conns[c].life == Detaching && pid in x.conns[c].processes
  }

  ghost function Do(lease: Lease, x: Exec, a: Action): Exec
    requires Enabled(lease, x, a)
  {
    match a
    case Reconnect => x.(generation := x.generation + 1)
    case Connect(c) => SetConn(x, c, Conn(Open, x.generation, None, false, false, map[], {}, {}))
    case Attach(c, session) =>
      SetConn(x, c, x.conns[c].(session := Some(session))).(owner := x.owner[session := c])
    case Answer(c) => SetConn(x, c, x.conns[c].(answered := true))
    case Ready(c) => SetConn(x, c, x.conns[c].(ready := true, early := {}))
    case Begin(c, id, kind, known) => Began(x, c, id, kind, known)
    case Forward(id) => Forwarded(x, id)
    case End(id) => x.(running := x.running - {id}, ended := x.ended + {id})
    case FilesystemReply(id) => Answered(Finish(x, id), id)
    case StartReply(id) => Answered(x, id)
    case StartError(id) => Answered(FinishProcess(x, x.requests[id].conn, id, x.rows[id].kind.pid), id)
    case Quiesced(c, pid) =>
      if pid in x.conns[c].processes then FinishProcess(x, c, x.conns[c].processes[pid], pid)
      else if !x.conns[c].ready then SetConn(x, c, x.conns[c].(early := x.conns[c].early + {pid}))
      else x
    case ReadQuiesced(c, id) => FinishProcess(x, c, id, x.rows[id].kind.pid)
    case Reattach(c, id) =>
      var y := SetState(x, id, Active);
      SetConn(y, c, y.conns[c].(processes := y.conns[c].processes[x.rows[id].kind.pid := id]))
    case FinishEarly(c, pid) => FinishProcess(x, c, x.conns[c].processes[pid], pid)
    case ListFiles(c) =>
      if x.conns[c].session.None? then x
      else SetConn(x, c, x.conns[c].(listed := OpenFiles(x, x.conns[c].session.value)))
    case FinishOld(c, id) => Finish(x, id)
    case Close(c) => SetConn(x, c, x.conns[c].(life := Closed))
    case StartDetach(c) => SetConn(x, c, x.conns[c].(life := Detaching))
    case DetachRequest(id) => if x.requests[id].forwarded then SetState(x, id, Detached) else Finish(x, id)
    case DetachProcess(c, pid) => SetState(x, x.conns[c].processes[pid], Detached)
  }

  // ---- Runs ----

  ghost predicate Run(lease: Lease, x: Exec, actions: seq<Action>, y: Exec)
    decreases |actions|
  {
    if actions == [] then y == x
    else Enabled(lease, x, actions[0]) && Run(lease, Do(lease, x, actions[0]), actions[1..], y)
  }

  lemma {:induction false} RunOn(lease: Lease, x: Exec, actions: seq<Action>, y: Exec,
                                 more: seq<Action>, z: Exec)
    requires Run(lease, x, actions, y) && Run(lease, y, more, z)
    ensures Run(lease, x, actions + more, z)
    decreases |actions|
  {
    if actions == [] {
      assert actions + more == more;
    } else {
      RunOn(lease, Do(lease, x, actions[0]), actions[1..], y, more, z);
      assert (actions + more)[1..] == actions[1..] + more;
    }
  }

  lemma RunOne(lease: Lease, x: Exec, a: Action)
    requires Enabled(lease, x, a)
    ensures Run(lease, x, [a], Do(lease, x, a))
  {
    assert [a][1..] == [];
    assert Run(lease, Do(lease, x, a), [], Do(lease, x, a));
  }
}
