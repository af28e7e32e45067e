/** A connection that resumes a session, from its request to the answer, with the quiesced
    notices that arrive in between: what it ends up following, in terms of the notices and
    the session's rows. */
module ResumeNotices {
  import opened InteractionTracker
  import opened Interactions
  import opened Wrappers

  /** The interaction belongs to the session and is not finished. */
  predicate Belongs(row: Row, session: string) {
    row.identity.session == session && (row.state == Active || row.state == RowState.Detached)
  }

  /** The state a resume leaves a row of its session in. */
  function LeftBy(row: Row, notices: seq<string>): RowState {
    match row.identity.kind
    case Filesystem => Finished
    case Process(pid) => if pid in notices then Finished else Active
  }

  predicate Rivals(r: Row, q: Row, session: string) {
    && Belongs(r, session) && Belongs(q, session)
    && r.identity.kind.Process? && q.identity.kind.Process? && r.identity.kind.pid == q.identity.kind.pid
  }

  /** No two unfinished processes of the session have one identifier. */
  ghost predicate OneEach(rows: Rows, session: string) {
    forall i, j :: i in rows && j in rows && Rivals(rows[i], rows[j], session) ==> i == j
  }

  function Elements(notices: seq<string>): set<string> {
    set pid | pid in notices
  }

  /** Notices that come before the connection has its session. */
  method Hear(t: ExecTracker, notices: seq<string>, ghost key: string)
    requires t.Valid() && key in t.pending && t.pending[key].value.Initialize?
    modifies t`processes, t`early, t.ledger`rows
    ensures t.Valid() && t.ledger.rows == old(t.ledger.rows) && t.processes == old(t.processes)
    ensures t.early == if t.pending[key].value.resume.Some? then old(t.early) + Elements(notices) else old(t.early)
  {
    ghost var resumes := t.pending[key].value.resume.Some?;
    assert Elements(notices[..0]) == {};
    for n := 0 to |notices|
      invariant t.Valid() && t.ledger.rows == old(t.ledger.rows) && t.processes == old(t.processes) == map[]
      invariant t.early == if resumes then old(t.early) + Elements(notices[..n]) else old(t.early)
    {
      assert Elements(notices[..n + 1]) == Elements(notices[..n]) + {notices[n]} by {
        assert notices[..n + 1] == notices[..n] + [notices[n]];
      }
      t.QuiescedNotice(notices[n]);
    }
    assert notices[..|notices|] == notices;
  }

  /** Exactly the noticed processes of the session are finished, like its file operations,
      and exactly the other processes are followed. */
  ghost predicate FollowsTheRest(rows: Rows, after: Rows, processes: map<string, Identity>, session: string,
                                 notices: seq<string>)
  {
    && after.Keys == rows.Keys
    && (forall id :: id in rows ==>
          after[id] == if Belongs(rows[id], session) then rows[id].(state := LeftBy(rows[id], notices)) else rows[id])
    && (forall pid :: pid in processes ==>
          && processes[pid].kind == Process(pid) && pid !in notices && processes[pid].id in rows
          && rows[processes[pid].id].identity == processes[pid] && Belongs(rows[processes[pid].id], session))
    && (forall id :: id in rows && Belongs(rows[id], session) && rows[id].identity.kind.Process? ==>
          rows[id].identity.kind.pid !in notices ==>
            rows[id].identity.kind.pid in processes && processes[rows[id].identity.kind.pid] == rows[id].identity)
  }

  lemma ResumedRowByRow(rows: Rows, processes: map<string, Identity>, session: string, notices: seq<string>)
    requires Keyed(rows) && Follows(processes, Resumed(rows, session, Elements(notices)), session)
    ensures FollowsTheRest(rows, Resumed(rows, session, Elements(notices)), processes, session, notices)
  {
    var after := Resumed(rows, session, Elements(notices));
    forall id | id in rows && Belongs(rows[id], session) && rows[id].identity.kind.Process?
                && rows[id].identity.kind.pid !in notices
      ensures rows[id].identity.kind.pid in processes && processes[rows[id].identity.kind.pid] == rows[id].identity
    {
      assert OpenProcess(after[id], session);
    }
  }

  lemma SameDistinct(rows: Rows, session: string)
    ensures OneEach(rows, session) <==> DistinctPids(rows, session)
  {
    assert forall i, j :: i in rows && j in rows ==>
      (Rivals(rows[i], rows[j], session) <==> SameProcess(rows[i], rows[j], session));
  }

  /** The request is made and forwarded. */
  method Ask(t: ExecTracker, key: string, resume: Option<string>) returns (ok: bool)
    requires t.Valid()
    modifies t`pending
    ensures t.Valid()
    ensures ok <==> && key !in old(t.pending) && t.session.None?
                    && forall k :: k in old(t.pending) ==> !old(t.pending)[k].value.Initialize?
    ensures ok ==> t.early == {} && t.pending == old(t.pending)[key := Pending(Initialize(resume), true)]
  {
    ok := t.AskInitialize(key, resume);
    if ok {
      var _ := t.MarkForwarded(key);
    }
  }

  ghost predicate Accepts(t: ExecTracker, rows: Rows, resume: Option<string>, reply: Option<string>)
    reads t.ledger
  {
    resume.Some? && reply.Some? ==>
      reply == resume && t.ledger.active && t.generation == t.ledger.generation && OneEach(rows, reply.value)
  }

  /** What the reply does, after the notices have been heard. */
  ghost predicate Settled(rows: Rows, after: Rows, processes: map<string, Identity>, resume: Option<string>,
                          notices: seq<string>, reply: Option<string>)
  {
    if resume.Some? && reply.Some? then FollowsTheRest(rows, after, processes, reply.value, notices)
    else after == rows && processes == map[]
  }

  method Settle(t: ExecTracker, key: string, ghost resume: Option<string>, ghost notices: seq<string>,
                reply: Option<string>)
    returns (ok: bool)
    requires t.Valid() && key in t.pending && t.pending[key] == Pending(Initialize(resume), true)
    requires resume.Some? ==> t.early == Elements(notices)
    modifies t, t.ledger`rows
    ensures ok <==> Accepts(t, old(t.ledger.rows), resume, reply)
    ensures ok ==> t.Valid() && t.session == reply && t.pending == old(t.pending) - {key}
    ensures ok ==> Settled(old(t.ledger.rows), t.ledger.rows, t.processes, resume, notices, reply)
  {
    ghost var rows := t.ledger.rows;
    if reply.Some? {
      SameDistinct(rows, reply.value);
    }
    ok := t.InitializeReply(key, reply);
    if ok && resume.Some? && reply.Some? {
      ResumedRowByRow(rows, t.processes, reply.value, notices);
    }
  }

  /** An initialize request, its forwarding, any notices, and the reply.  After an accepted
      resume the connection follows the session's processes but for the noticed ones;
      without a resume no notice has any effect. */
  method Reconnect(t: ExecTracker, key: string, resume: Option<string>, notices: seq<string>, reply: Option<string>)
    returns (ok: bool)
    requires t.Valid()
    modifies t, t.ledger`rows
    ensures ok <==>
      && key !in old(t.pending) && old(t.session).None?
      && (forall k :: k in old(t.pending) ==> !old(t.pending)[k].value.Initialize?)
      && Accepts(t, old(t.ledger.rows), resume, reply)
    ensures ok ==> t.Valid() && t.session == reply && t.pending == old(t.pending)
    ensures ok ==> Settled(old(t.ledger.rows), t.ledger.rows, t.processes, resume, notices, reply)
  {
    ok := Ask(t, key, resume);
    if !ok { return; }
    Hear(t, notices, key);
    ok := Settle(t, key, resume, notices, reply);
    assert old(t.pending)[key := Pending(Initialize(resume), true)] - {key} == old(t.pending);
  }
}
