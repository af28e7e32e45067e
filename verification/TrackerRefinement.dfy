/** The tracker refines the protocol: every transaction that one connection's tracker makes on
    the ledger, with what the connection remembers of it, is an action of the protocol, and
    leaves every other connection as it was, so what is proved of the protocol holds of any
    interleaving of trackers.  Working through an answer and detaching, which take many
    transactions, are also shown as the runs they are when nothing comes in between.  What the
    environment promises, such as truthful reports of the exec server, is required of each
    call. */
module TrackerRefinement {
  import opened Interactions
  import opened TrackerRuns
  import opened TrackerView
  import opened Wrappers
  import Q = Quiescence
  import Safety = QuiescenceSafety
  import T = InteractionTracker

  /** A run of the protocol's actions leads from `x` to `y`, in which the tracker has its new
      contents and the other connections have theirs. */
  ghost predicate Refines(lease: Q.Lease, x: Q.Exec, actions: seq<Q.Action>, y: Q.Exec, c: nat, v: View) {
    Q.Run(lease, x, actions, y) && Carries(y, c, v) && SameOthers(x, y, c)
  }

  lemma StaysCarried(lease: Q.Lease, x: Q.Exec, c: nat, v: View)
    requires Carries(x, c, v)
    ensures Refines(lease, x, [], x, c, v)
  {
  }

  /** So the protocol's invariant is kept by whatever the trackers do. */
  lemma {:induction false} RunKeeps(lease: Q.Lease, x: Q.Exec, actions: seq<Q.Action>, y: Q.Exec)
    requires !lease.reuse && !lease.overlap && Safety.Inv(x) && Q.Run(lease, x, actions, y)
    ensures Safety.Inv(y)
    decreases |actions|
  {
    if actions != [] {
      Safety.DoKeeps(lease, x, actions[0]);
      RunKeeps(lease, Q.Do(lease, x, actions[0]), actions[1..], y);
    }
  }

  // ---- Requests ----

  /** What the protocol asks of clients: an identifier is not used again within its session,
      or, where that is allowed, not before its process is finished. */
  ghost predicate ClientKeepsTo(lease: Q.Lease, x: Q.Exec, session: string, kind: Kind) {
    kind.Process? ==>
      forall id :: id in x.rows && Q.IsProcess(x.rows[id], session, kind.pid) ==>
                     lease.reuse && x.rows[id].state == Finished
  }

  method Journal(t: T.ExecTracker, key: string, id: string, kind: Kind,
                 ghost lease: Q.Lease, ghost x: Q.Exec, ghost c: nat)
    returns (ok: bool, ghost actions: seq<Q.Action>, ghost y: Q.Exec)
    requires t.Valid() && Carries(x, c, ViewOf(t)) && id !in t.ledger.rows && x.conns[c].life != Q.Detaching
    requires t.session.Some? && (kind.Process? ==> kind.pid !in t.processes)
             && !t.ledger.Taken(T.Identity(id, t.generation, t.session.value, kind)) ==>
               ClientKeepsTo(lease, x, t.session.value, kind)
    modifies t, t.ledger`rows
    ensures t.Valid() && Refines(lease, x, actions, y, c, ViewOf(t))
    ensures actions == if ok then [Q.Begin(c, id, kind, true)] else []
  {
    ghost var v := ViewOf(t);
    ok := t.Journal(key, id, kind);
    if ok {
      ghost var identity := T.Identity(id, t.generation, v.session.value, kind);
      BeginCarried(x, c, v, ViewOf(t), key, identity);
      actions, y := [Q.Begin(c, id, kind, true)], Q.Began(x, c, id, kind, true);
      Q.RunOne(lease, x, Q.Begin(c, id, kind, true));
    } else {
      assert ViewOf(t) == v;
      actions, y := [], x;
      StaysCarried(lease, x, c, v);
    }
  }

  /** Only what was journalled is an action of the protocol. */
  function ForwardAction(value: T.Value): seq<Q.Action> {
    if value.Tracked? then [Q.Forward(value.identity.id)] else []
  }

  /** Forwarding a request; the connection is open. */
  method MarkForwarded(t: T.ExecTracker, key: string, ghost lease: Q.Lease, ghost x: Q.Exec, ghost c: nat)
    returns (ok: bool, ghost actions: seq<Q.Action>, ghost y: Q.Exec)
    requires t.Valid() && Carries(x, c, ViewOf(t)) && x.conns[c].life == Q.Open
    requires key in t.pending && !t.pending[key].forwarded
    modifies t`pending
    ensures t.Valid() && ok && Refines(lease, x, actions, y, c, ViewOf(t))
    ensures actions == ForwardAction(old(t.pending)[key].value)
  {
    ghost var v := ViewOf(t);
    ok := t.MarkForwarded(key);
    ghost var value := v.pending[key].value;
    if value.Tracked? {
      assert RequestCarried(x, c, v.pending[key]);
      ForwardCarried(lease, x, c, v, key);
      actions, y := [Q.Forward(value.identity.id)], Q.Do(lease, x, Q.Forward(value.identity.id));
      Q.RunOne(lease, x, Q.Forward(value.identity.id));
    } else {
      OtherForwarded(x, c, v, key);
      actions, y := [], x;
      StaysCarried(lease, x, c, ViewOf(t));
    }
  }

  lemma OtherForwarded(x: Q.Exec, c: nat, v: View, key: string)
    requires Carries(x, c, v) && key in v.pending && !v.pending[key].value.Tracked?
    ensures Carries(x, c, v.(pending := v.pending[key := v.pending[key].(forwarded := true)]))
  {
    var w := v.(pending := v.pending[key := v.pending[key].(forwarded := true)]);
    assert forall k :: k in w.pending ==>
             RequestCarried(x, c, v.pending[k]) && ReadCarried(v.pending[k], x.conns[c].session);
    forall k, l | k in w.pending && l in w.pending && SameInteraction(w.pending[k], w.pending[l])
      ensures k == l
    {
      assert SameInteraction(v.pending[k], v.pending[l]);
    }
  }

  method AskRead(t: T.ExecTracker, key: string, pid: string, ghost lease: Q.Lease, ghost x: Q.Exec, ghost c: nat)
    returns (ok: bool)
    requires t.Valid() && Carries(x, c, ViewOf(t))
    modifies t`pending
    ensures t.Valid() && Refines(lease, x, [], x, c, ViewOf(t))
  {
    ghost var v := ViewOf(t);
    ok := t.AskRead(key, pid);
    if ok {
      OtherAsked(x, c, v, key, t.pending[key]);
    }
    StaysCarried(lease, x, c, ViewOf(t));
  }

  method AskInitialize(t: T.ExecTracker, key: string, resume: Option<string>,
                       ghost lease: Q.Lease, ghost x: Q.Exec, ghost c: nat)
    returns (ok: bool)
    requires t.Valid() && Carries(x, c, ViewOf(t))
    modifies t`pending
    ensures t.Valid() && Refines(lease, x, [], x, c, ViewOf(t))
  {
    ghost var v := ViewOf(t);
    ok := t.AskInitialize(key, resume);
    if ok {
      OtherAsked(x, c, v, key, t.pending[key]);
    }
    StaysCarried(lease, x, c, ViewOf(t));
  }

  lemma OtherAsked(x: Q.Exec, c: nat, v: View, key: string, p: T.Pending)
    requires Carries(x, c, v) && key !in v.pending && !p.value.Tracked? && ReadCarried(p, x.conns[c].session)
    ensures Carries(x, c, v.(pending := v.pending[key := p]))
  {
    var w := v.(pending := v.pending[key := p]);
    forall k | k in w.pending
      ensures RequestCarried(x, c, w.pending[k]) && ReadCarried(w.pending[k], x.conns[c].session)
    {
      assert k != key ==> RequestCarried(x, c, v.pending[k]) && ReadCarried(v.pending[k], x.conns[c].session);
    }
  }

  // ---- Reports ----

  method QuiescedNotice(t: T.ExecTracker, pid: string, ghost lease: Q.Lease, ghost x: Q.Exec, ghost c: nat)
    returns (ghost y: Q.Exec)
    requires t.Valid() && Carries(x, c, ViewOf(t))
    requires x.conns[c].session.Some? && Q.Reported(x, x.conns[c].session.value, pid)
    modifies t`processes, t`early, t.ledger`rows
    ensures t.Valid() && Refines(lease, x, [Q.Quiesced(c, pid)], y, c, ViewOf(t))
  {
    ghost var v := ViewOf(t);
    t.QuiescedNotice(pid);
    y := Q.Do(lease, x, Q.Quiesced(c, pid));
    Q.RunOne(lease, x, Q.Quiesced(c, pid));
    if pid in v.processes {
      FinishProcessCarried(x, c, v, v.processes[pid].id, pid);
    } else {
      NotedCarried(x, y, c, v, ViewOf(t));
    }
  }

  lemma NotedCarried(x: Q.Exec, y: Q.Exec, c: nat, v: View, w: View)
    requires Carries(x, c, v) && w == v.(early := w.early) && c in y.conns && w.early <= y.conns[c].early
    requires y == x || y == Q.SetConn(x, c, x.conns[c].(early := y.conns[c].early))
    ensures Carries(y, c, w) && SameOthers(x, y, c)
  {
    assert forall k :: k in v.pending ==> RequestCarried(x, c, v.pending[k]) ==> RequestCarried(y, c, v.pending[k]);
  }

  /** A truthful reply: what it says is over is over. */
  ghost predicate Truthful(x: Q.Exec, value: T.Value, failed: bool, quiesced: bool) {
    match value
    case Tracked(identity) => identity.kind.Filesystem? || failed ==> identity.id !in x.running
    case Read(identity) => quiesced && !failed ==> identity.id in x.ended
    case _ => true
  }

  /** The protocol's action for a reply, if there is one. */
  function ReplyAction(c: nat, value: T.Value, failed: bool, quiesced: bool): seq<Q.Action> {
    match value
    case Tracked(identity) =>
      if identity.kind.Filesystem? then [Q.FilesystemReply(identity.id)]
      else if failed then [Q.StartError(identity.id)] else [Q.StartReply(identity.id)]
    case Read(identity) => if quiesced && !failed then [Q.ReadQuiesced(c, identity.id)] else []
    case _ => []
  }

  method Reply(t: T.ExecTracker, key: string, failed: bool, quiesced: bool, pid: string,
               ghost lease: Q.Lease, ghost x: Q.Exec, ghost c: nat)
    returns (ok: bool, ghost actions: seq<Q.Action>, ghost y: Q.Exec)
    requires t.Valid() && Carries(x, c, ViewOf(t))
    requires key in t.pending ==>
               !t.pending[key].value.Initialize? && Truthful(x, t.pending[key].value, failed, quiesced)
    modifies t`pending, t`processes, t.ledger`rows
    ensures t.Valid() && Refines(lease, x, actions, y, c, ViewOf(t))
    ensures ok ==> key in old(t.pending)
    ensures actions == if ok then ReplyAction(c, old(t.pending)[key].value, failed, quiesced) else []
  {
    ghost var v := ViewOf(t);
    ok := t.Reply(key, failed, quiesced, pid);
    if ok {
      actions := ReplyAction(c, v.pending[key].value, failed, quiesced);
      y := RepliedRefines(lease, x, c, v, ViewOf(t), key, failed, quiesced);
    } else {
      assert ViewOf(t) == v;
      actions, y := [], x;
      StaysCarried(lease, x, c, v);
    }
  }

  /** What a reply makes of the tracker. */
  ghost predicate Replied(v: View, w: View, key: string, failed: bool, quiesced: bool) {
    && key in v.pending && v.pending[key].forwarded && !v.pending[key].value.Initialize?
    && var value := v.pending[key].value; var ends := T.Ends(value, failed, quiesced);
    && (ends ==> value.identity.id in v.rows && v.rows[value.identity.id].identity == value.identity)
    && w == v.(pending := v.pending - {key},
               rows := if ends then T.Set(v.rows, value.identity.id, Finished) else v.rows,
               processes := if ends then v.processes - T.OwnPid(value.identity) else v.processes)
  }

  lemma RepliedRefines(lease: Q.Lease, x: Q.Exec, c: nat, v: View, w: View, key: string, failed: bool, quiesced: bool)
    returns (y: Q.Exec)
    requires Carries(x, c, v) && Replied(v, w, key, failed, quiesced)
    requires Truthful(x, v.pending[key].value, failed, quiesced)
    requires v.pending[key].value.Tracked? ==>
               var identity := v.pending[key].value.identity;
               identity.id in v.rows && v.rows[identity.id].identity == identity
    ensures Refines(lease, x, ReplyAction(c, v.pending[key].value, failed, quiesced), y, c, w)
  {
    var value := v.pending[key].value;
    assert RequestCarried(x, c, v.pending[key]) && ReadCarried(v.pending[key], x.conns[c].session);
    if value.Tracked? {
      y := TrackedReply(lease, x, c, v, w, key, failed, quiesced);
    } else {
      var u := v.(rows := w.rows, processes := w.processes);
      if value.Read? && quiesced && !failed {
        FinishProcessCarried(x, c, v, value.identity.id, value.identity.kind.pid);
        y := Q.Do(lease, x, Q.ReadQuiesced(c, value.identity.id));
        Q.RunOne(lease, x, Q.ReadQuiesced(c, value.identity.id));
      } else {
        y := x;
      }
      OtherAnswered(y, c, u, key);
    }
  }

  lemma OtherAnswered(x: Q.Exec, c: nat, v: View, key: string)
    requires Carries(x, c, v)
    ensures Carries(x, c, v.(pending := v.pending - {key}))
  {
    assert forall k :: k in v.pending - {key} ==>
             RequestCarried(x, c, v.pending[k]) && ReadCarried(v.pending[k], x.conns[c].session);
  }

  /** The state before the request is taken off the list. */
  function Concluded(x: Q.Exec, c: nat, identity: T.Identity, failed: bool): Q.Exec
    requires c in x.conns
  {
    if identity.kind.Filesystem? then Q.Finish(x, identity.id)
    else if failed then Q.FinishProcess(x, c, identity.id, identity.kind.pid) else x
  }

  lemma ReplyIsAction(lease: Q.Lease, x: Q.Exec, c: nat, identity: T.Identity, failed: bool, quiesced: bool)
    requires c in x.conns && identity.id in x.requests && x.requests[identity.id] == Q.Request(c, true)
    requires identity.id in x.rows && x.rows[identity.id].kind == identity.kind
    requires Truthful(x, T.Tracked(identity), failed, quiesced)
    ensures var actions := ReplyAction(c, T.Tracked(identity), failed, quiesced);
      Q.Run(lease, x, actions, Q.Answered(Concluded(x, c, identity, failed), identity.id))
  {
    Q.RunOne(lease, x, ReplyAction(c, T.Tracked(identity), failed, quiesced)[0]);
  }

  lemma ConcludedCarried(x: Q.Exec, c: nat, v: View, w: View, identity: T.Identity, failed: bool)
    requires Carries(x, c, v) && identity.id in v.rows
    requires var ends := identity.kind.Filesystem? || failed;
      w == v.(rows := if ends then T.Set(v.rows, identity.id, Finished) else v.rows,
              processes := if ends then v.processes - T.OwnPid(identity) else v.processes)
    ensures Carries(Concluded(x, c, identity, failed), c, w) && SameOthers(x, Concluded(x, c, identity, failed), c)
  {
    if identity.kind.Filesystem? {
      FinishFileCarried(x, c, v, identity.id);
      assert v.processes - {} == v.processes;
    } else if failed {
      FinishProcessCarried(x, c, v, identity.id, identity.kind.pid);
    }
  }

  lemma TrackedReply(lease: Q.Lease, x: Q.Exec, c: nat, v: View, w: View, key: string, failed: bool, quiesced: bool)
    returns (y: Q.Exec)
    requires Carries(x, c, v) && Replied(v, w, key, failed, quiesced) && v.pending[key].value.Tracked?
    requires Truthful(x, v.pending[key].value, failed, quiesced)
    requires var identity := v.pending[key].value.identity;
      identity.id in v.rows && v.rows[identity.id].identity == identity
    ensures Refines(lease, x, ReplyAction(c, v.pending[key].value, failed, quiesced), y, c, w)
  {
    var identity := v.pending[key].value.identity;
    var u, z := v.(rows := w.rows, processes := w.processes), Concluded(x, c, identity, failed);
    assert RequestCarried(x, c, v.pending[key]);
    ConcludedCarried(x, c, v, u, identity, failed);
    AnsweredCarried(z, c, u, key);
    y := Q.Answered(z, identity.id);
    OthersCompose(x, z, y, c);
    ReplyIsAction(lease, x, c, identity, failed, quiesced);
  }

  lemma FinishFileCarried(x: Q.Exec, c: nat, v: View, id: string)
    requires Carries(x, c, v) && id in v.rows
    ensures var y := Q.Finish(x, id); Carries(y, c, v.(rows := T.Set(v.rows, id, Finished))) && SameOthers(x, y, c)
  {
    FinishRows(v.rows, x, id);
    assert forall k :: k in v.pending ==>
             RequestCarried(x, c, v.pending[k]) ==> RequestCarried(Q.Finish(x, id), c, v.pending[k]);
  }

  // ---- Working through an answer, transaction by transaction ----

  /** What the ledger knows about everything the connection remembers. */
  ghost predicate Remembered(t: T.ExecTracker)
    reads t, t.ledger
  {
    && T.Keyed(t.ledger.rows)
    && (forall pid :: pid in t.processes ==> t.Known(t.processes[pid]))
    && (forall k :: k in t.pending && t.pending[k].value.Tracked? ==> t.Known(t.pending[k].value.identity))
  }

  /** One process that was listed for the session; it may have been finished since. */
  method TakeOver(t: T.ExecTracker, identity: T.Identity, ghost lease: Q.Lease, ghost x: Q.Exec, ghost c: nat)
    returns (ok: bool, ghost actions: seq<Q.Action>, ghost y: Q.Exec)
    requires Remembered(t) && Carries(x, c, ViewOf(t)) && t.session.None? && x.conns[c].answered
    requires identity.kind.Process? && x.conns[c].session == Some(identity.session)
    modifies t`processes, t.ledger`rows
    ensures Remembered(t) && Refines(lease, x, actions, y, c, ViewOf(t))
    ensures actions == if ok then [Q.Reattach(c, identity.id)] else []
  {
    ghost var v := ViewOf(t);
    actions, y := [], x;
    ok := t.TakeOver(identity);
    if ok {
      actions := [Q.Reattach(c, identity.id)];
      y := TakenRefines(lease, x, c, v, ViewOf(t), identity);
    } else {
      assert ViewOf(t) == v;
      StaysCarried(lease, x, c, v);
    }
  }

  lemma TakenRefines(lease: Q.Lease, x: Q.Exec, c: nat, v: View, w: View, identity: T.Identity) returns (y: Q.Exec)
    requires Carries(x, c, v) && v.session.None? && x.conns[c].answered && v.generation == v.current
    requires T.Admits(v.rows, identity, Active) && identity.kind.Process? && identity.kind.pid !in v.processes
    requires x.conns[c].session == Some(identity.session)
    requires w == v.(rows := T.Set(v.rows, identity.id, Active),
                     processes := v.processes[identity.kind.pid := identity])
    ensures Refines(lease, x, [Q.Reattach(c, identity.id)], y, c, w)
  {
    y := Q.Do(lease, x, Q.Reattach(c, identity.id));
    Q.RunOne(lease, x, Q.Reattach(c, identity.id));
    TakenCarried(x, y, c, v, w, identity);
  }

  lemma TakenCarried(x: Q.Exec, y: Q.Exec, c: nat, v: View, w: View, identity: T.Identity)
    requires Carries(x, c, v) && identity.id in v.rows && v.rows[identity.id].state != Finished
    requires identity.kind.Process? && OwnProcess(identity, identity.kind.pid, x.conns[c].session)
    requires y == Q.SetConn(Q.SetState(x, identity.id, Active), c,
                            x.conns[c].(processes := x.conns[c].processes[identity.kind.pid := identity.id]))
    requires w == v.(rows := T.Set(v.rows, identity.id, Active),
                     processes := v.processes[identity.kind.pid := identity])
    ensures Carries(y, c, w) && SameOthers(x, y, c)
  {
    assert y.rows == RowsOf(w.rows);
    assert y.conns[c].processes == IdsOf(w.processes);
    assert forall k :: k in v.pending ==> RequestCarried(x, c, v.pending[k]) ==> RequestCarried(y, c, v.pending[k]);
  }

  /** One process that was reported quiesced before the answer came. */
  method FinishFollowed(t: T.ExecTracker, pid: string, ghost lease: Q.Lease, ghost x: Q.Exec, ghost c: nat)
    returns (ghost actions: seq<Q.Action>, ghost y: Q.Exec)
    requires Remembered(t) && Carries(x, c, ViewOf(t)) && t.session.None? && pid in t.early
    modifies t`processes, t.ledger`rows
    ensures Remembered(t) && Refines(lease, x, actions, y, c, ViewOf(t))
    ensures actions == if pid in old(t.processes) then [Q.FinishEarly(c, pid)] else []
  {
    ghost var v := ViewOf(t);
    actions, y := [], x;
    t.FinishFollowed(pid);
    if pid in v.processes {
      actions := [Q.FinishEarly(c, pid)];
      y := FollowedRefines(lease, x, c, v, pid);
    } else {
      assert ViewOf(t) == v;
      StaysCarried(lease, x, c, v);
    }
  }

  lemma FollowedRefines(lease: Q.Lease, x: Q.Exec, c: nat, v: View, pid: string) returns (y: Q.Exec)
    requires Carries(x, c, v) && v.session.None? && pid in v.early && pid in v.processes
    requires v.processes[pid].id in v.rows
    ensures Refines(lease, x, [Q.FinishEarly(c, pid)], y, c,
                    v.(rows := T.Set(v.rows, v.processes[pid].id, Finished), processes := v.processes - {pid}))
  {
    FinishProcessCarried(x, c, v, v.processes[pid].id, pid);
    y := Q.Do(lease, x, Q.FinishEarly(c, pid));
    Q.RunOne(lease, x, Q.FinishEarly(c, pid));
  }

  /** The session's unfinished file operations; a connection behind the lease gets none. */
  method ListFiles(t: T.ExecTracker, name: string, ghost lease: Q.Lease, ghost x: Q.Exec, ghost c: nat)
    returns (r: Option<seq<T.Identity>>, ghost actions: seq<Q.Action>, ghost y: Q.Exec)
    requires Remembered(t) && Carries(x, c, ViewOf(t)) && t.session.None?
    requires x.conns[c].answered && x.conns[c].session == Some(name)
    ensures Refines(lease, x, actions, y, c, ViewOf(t))
    ensures actions == if r.Some? then [Q.ListFiles(c)] else []
    ensures r.Some? ==> forall i :: 0 <= i < |r.value| ==> t.Known(r.value[i]) && r.value[i].id in y.conns[c].listed
  {
    r := t.ledger.List(name, false, t.generation);
    actions, y := [], x;
    StaysCarried(lease, x, c, ViewOf(t));
    if r.Some? {
      y := ListRun(lease, x, c, name);
      actions := [Q.ListFiles(c)];
      ListedCarried(x, y, c, ViewOf(t));
    }
  }

  lemma ListedCarried(x: Q.Exec, y: Q.Exec, c: nat, v: View)
    requires Carries(x, c, v) && c in y.conns
    requires y == x.(conns := x.conns[c := x.conns[c].(listed := y.conns[c].listed)])
    ensures Carries(y, c, v) && SameOthers(x, y, c)
  {
    assert forall k :: k in v.pending ==> RequestCarried(x, c, v.pending[k]) ==> RequestCarried(y, c, v.pending[k]);
  }

  /** One of them, whatever has happened to it since. */
  method FinishFile(t: T.ExecTracker, identity: T.Identity, ghost lease: Q.Lease, ghost x: Q.Exec, ghost c: nat)
    returns (ghost y: Q.Exec)
    requires Remembered(t) && Carries(x, c, ViewOf(t)) && t.session.None?
    requires t.Known(identity) && identity.id in x.conns[c].listed
    modifies t.ledger`rows
    ensures Remembered(t) && Refines(lease, x, [Q.FinishOld(c, identity.id)], y, c, ViewOf(t))
  {
    ghost var v := ViewOf(t);
    var finished := t.ledger.Transition(identity, Finished);
    assert finished;
    y := FileRefines(lease, x, c, v, identity.id);
  }

  lemma FileRefines(lease: Q.Lease, x: Q.Exec, c: nat, v: View, id: string) returns (y: Q.Exec)
    requires Carries(x, c, v) && v.session.None? && id in v.rows && id in x.conns[c].listed
    ensures Refines(lease, x, [Q.FinishOld(c, id)], y, c, v.(rows := T.Set(v.rows, id, Finished)))
  {
    FinishFileCarried(x, c, v, id);
    y := Q.Do(lease, x, Q.FinishOld(c, id));
    Q.RunOne(lease, x, Q.FinishOld(c, id));
  }

  /** The answer is worked through and delivered. */
  method Conclude(t: T.ExecTracker, key: string, name: string, ghost lease: Q.Lease, ghost x: Q.Exec, ghost c: nat)
    returns (ghost y: Q.Exec)
    requires Remembered(t) && Carries(x, c, ViewOf(t)) && t.session.None?
    requires x.conns[c].answered && x.conns[c].session == Some(name)
    modifies t`session, t`early, t`pending
    ensures Remembered(t) && Refines(lease, x, [Q.Ready(c)], y, c, ViewOf(t))
  {
    ghost var v := ViewOf(t);
    t.Conclude(key, Some(name));
    y := ReadyRun(lease, x, c);
    ReadyCarried(x, y, c, v, ViewOf(t), key, name);
  }

  lemma ReadyCarried(x: Q.Exec, y: Q.Exec, c: nat, v: View, w: View, key: string, name: string)
    requires Carries(x, c, v) && x.conns[c].session == Some(name)
    requires w == v.(pending := v.pending - {key}, early := {}, session := Some(name))
    requires y == x.(conns := x.conns[c := x.conns[c].(ready := true, early := {})])
    ensures Carries(y, c, w) && SameOthers(x, y, c)
  {
    assert forall k :: k in v.pending ==> RequestCarried(x, c, v.pending[k]) ==> RequestCarried(y, c, v.pending[k]);
  }

  /** One waiting request of a connection that detaches. */
  method LeaveRequest(t: T.ExecTracker, key: string, ghost lease: Q.Lease, ghost x: Q.Exec, ghost c: nat)
    returns (ghost y: Q.Exec)
    requires Remembered(t) && Carries(x, c, ViewOf(t)) && Detaching(x, c)
    requires key in t.pending && t.pending[key].value.Tracked?
    modifies t.ledger`rows
    ensures Remembered(t)
    ensures Refines(lease, x, [Q.DetachRequest(t.pending[key].value.identity.id)], y, c, ViewOf(t))
  {
    ghost var v := ViewOf(t);
    var identity, forwarded := t.pending[key].value.identity, t.pending[key].forwarded;
    assert RequestCarried(x, c, v.pending[key]);
    var _ := t.ledger.Transition(identity, if forwarded then Detached else Finished);
    y := DetachRequestOne(lease, x, c, {identity.id}, forwarded, identity.id);
    LeftRowCarried(x, y, c, v, ViewOf(t), identity.id, Leaving(forwarded));
  }

  /** One followed process of a connection that detaches. */
  method LeaveProcess(t: T.ExecTracker, pid: string, ghost lease: Q.Lease, ghost x: Q.Exec, ghost c: nat)
    returns (ghost y: Q.Exec)
    requires Remembered(t) && Carries(x, c, ViewOf(t)) && Detaching(x, c) && pid in t.processes
    modifies t.ledger`rows
    ensures Remembered(t) && Refines(lease, x, [Q.DetachProcess(c, pid)], y, c, ViewOf(t))
  {
    ghost var v := ViewOf(t);
    var _ := t.ledger.Transition(t.processes[pid], Detached);
    y := DetachProcessOne(lease, x, c, pid);
    LeftRowCarried(x, y, c, v, ViewOf(t), v.processes[pid].id, Detached);
  }

  lemma LeftRowCarried(x: Q.Exec, y: Q.Exec, c: nat, v: View, w: View, id: string, state: RowState)
    requires Carries(x, c, v) && id in v.rows && y == x.(rows := MarkOpen(x.rows, {id}, state))
    requires w == v.(rows := if v.rows[id].state == Finished then v.rows else T.Set(v.rows, id, state))
    ensures Carries(y, c, w) && SameOthers(x, y, c)
  {
    assert y.rows == RowsOf(w.rows);
    assert forall k :: k in v.pending ==> RequestCarried(x, c, v.pending[k]) ==> RequestCarried(y, c, v.pending[k]);
  }

  // ---- Without anything in between ----

  /** The reply to an initialize request.  The server has answered, naming the session it
      attached the connection to.  A reply that is refused ends the connection. */
  method InitializeReply(t: T.ExecTracker, key: string, reply: Option<string>,
                         ghost lease: Q.Lease, ghost x: Q.Exec, ghost c: nat)
    returns (ok: bool, ghost actions: seq<Q.Action>, ghost y: Q.Exec)
    requires t.Valid() && Carries(x, c, ViewOf(t)) && (key in t.pending ==> t.pending[key].value.Initialize?)
    requires reply.Some? ==> x.conns[c].answered && x.conns[c].session == reply
    modifies t, t.ledger`rows
    ensures ok ==> t.Valid() && Refines(lease, x, actions, y, c, ViewOf(t))
  {
    ghost var v := ViewOf(t);
    ok := t.InitializeReply(key, reply);
    actions, y := [], x;
    if ok {
      if reply.None? {
        OtherAnswered(x, c, v, key);
        assert ViewOf(t) == v.(pending := v.pending - {key}, early := {});
        LessEarly(x, c, v.(pending := v.pending - {key}));
        StaysCarried(lease, x, c, ViewOf(t));
      } else if v.pending[key].value.resume.Some? {
        actions, y := ResumeRun(lease, x, c, reply.value, v.rows, v.early, t.processes);
        AnswersCarried(x, y, c, v, ViewOf(t), key, reply.value);
      } else {
        y := ReadyRun(lease, x, c);
        actions := [Q.Ready(c)];
        ReadyCarried(x, y, c, v, ViewOf(t), key, reply.value);
      }
    }
  }

  lemma LessEarly(x: Q.Exec, c: nat, v: View)
    requires Carries(x, c, v)
    ensures Carries(x, c, v.(early := {}))
  {
    assert forall k :: k in v.pending ==>
             RequestCarried(x, c, v.pending[k]) && ReadCarried(v.pending[k], x.conns[c].session);
  }

  lemma AnswersCarried(x: Q.Exec, y: Q.Exec, c: nat, v: View, w: View, key: string, session: string)
    requires Carries(x, c, v) && v.session.None? && x.conns[c].session == Some(session)
    requires w == v.(rows := w.rows, pending := v.pending - {key}, processes := w.processes, early := {},
                     session := Some(session))
    requires w.rows.Keys == v.rows.Keys && Answers(x, y, c, w.rows, w.processes)
    requires forall pid :: pid in w.processes ==> OwnProcess(w.processes[pid], pid, Some(session))
    ensures Carries(y, c, w) && SameOthers(x, y, c)
  {
    assert forall k :: k in v.pending ==> RequestCarried(x, c, v.pending[k]) ==> RequestCarried(y, c, v.pending[k]);
  }

  /** The connection is over and closed. */
  method Detach(t: T.ExecTracker, ghost lease: Q.Lease, ghost x: Q.Exec, ghost c: nat)
    returns (ghost actions: seq<Q.Action>, ghost y: Q.Exec)
    requires t.Valid() && Carries(x, c, ViewOf(t)) && x.conns[c].life == Q.Closed
    modifies t.ledger`rows
    ensures t.Valid() && Refines(lease, x, actions, y, c, ViewOf(t))
  {
    ghost var v := ViewOf(t);
    assert AllKnown(v.rows, T.Waiting(v.pending, false)) && AllKnown(v.rows, T.Waiting(v.pending, true));
    assert AllKnown(v.rows, T.Followed(v.processes));
    actions, y := LeaveRun(lease, x, c, v);
    t.Detach();
    LeftCarried(x, y, c, v, ViewOf(t));
  }

  lemma LeftCarried(x: Q.Exec, y: Q.Exec, c: nat, v: View, w: View)
    requires Carries(x, c, v) && w == v.(rows := w.rows) && w.rows.Keys == v.rows.Keys
    requires y == x.(conns := x.conns[c := x.conns[c].(life := Q.Detaching)], rows := RowsOf(w.rows))
    ensures Carries(y, c, w) && SameOthers(x, y, c)
  {
    assert forall k :: k in v.pending ==> RequestCarried(x, c, v.pending[k]) ==> RequestCarried(y, c, v.pending[k]);
  }
}
