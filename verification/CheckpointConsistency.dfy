/** Checkpoints interleaved with commands.  A checkpoint takes the lease lock, checks that
    the lease is quiescent, exports the workspace, lets the provider take a snapshot and
    commits both in the transaction that holds the lock.  It can stop anywhere, and it can
    lose its database session, and with it the lock, without noticing before it commits. */
module CheckpointConsistency {
  import opened Interactions
  import opened Quiescence
  import opened QuiescenceSafety
  import opened Wrappers

  /** How far a checkpoint is, with the workspace version at the beginning and at the end
      of the export and of the provider's snapshot. */
  datatype Stage =
    | Locked | Checked
    | Exporting(from: nat) | Exported(from: nat, to: nat)
    | Capturing(from: nat, to: nat, first: nat) | Captured(from: nat, to: nat, first: nat, last: nat)
    | Over

  datatype Checkpoint = Checkpoint(from: nat, to: nat, first: nat, last: nat)

  datatype State = State(x: Exec, version: nat, lock: Option<nat>, stages: map<nat, Stage>,
                         committed: seq<Checkpoint>)

  datatype Event =
    | Act(action: Action) | Mutate(id: string)
    | TakeLock(checkpoint: nat) | Advance(checkpoint: nat) | Abort(checkpoint: nat) | LoseLock(checkpoint: nat)

  function Init(): State {
    State(Exec(0, map[], map[], map[], map[], {}, {}), 0, None, map[], [])
  }

  function Release(s: State, h: nat): State {
    s.(stages := s.stages[h := Over], lock := if s.lock == Some(h) then None else s.lock)
  }

  /** The next step of a checkpoint.  The check and the commit are statements of the
      transaction that holds the lock, so they fail once it is lost; the provider calls do
      not notice. */
  function Advanced(lease: Lease, s: State, h: nat): State
    requires h in s.stages
  {
    match s.stages[h]
    case Locked =>
      if s.lock == Some(h) && Quiet(lease, s.x) then s.(stages := s.stages[h := Checked]) else Release(s, h)
    case Checked => s.(stages := s.stages[h := Exporting(s.version)])
    case Exporting(from) => s.(stages := s.stages[h := Exported(from, s.version)])
    case Exported(from, to) => s.(stages := s.stages[h := Capturing(from, to, s.version)])
    case Capturing(from, to, first) => s.(stages := s.stages[h := Captured(from, to, first, s.version)])
    case Captured(from, to, first, last) =>
      if s.lock == Some(h)
      then Release(s, h).(committed := s.committed + [Checkpoint(from, to, first, last)]) else Release(s, h)
    case Over => s
  }

  ghost function Next(lease: Lease, s: State, e: Event): State {
    match e
    case Act(a) =>
      if Enabled(lease, s.x, a) && (UsesLedger(s.x, a) ==> s.lock.None?) then s.(x := Do(lease, s.x, a)) else s
    case Mutate(id) =>
      // A running request changes the workspace; the code-mode process does not.
      if id in s.x.running && id in s.x.rows && !Exempt(lease, s.x.generation, s.x.rows[id])
      then s.(version := s.version + 1) else s
    case TakeLock(h) =>
      if s.lock.None? && h !in s.stages then s.(lock := Some(h), stages := s.stages[h := Locked]) else s
    case Advance(h) => if h in s.stages then Advanced(lease, s, h) else s
    case Abort(h) => if h in s.stages then Release(s, h) else s
    case LoseLock(h) => if s.lock == Some(h) then s.(lock := None) else s
  }

  ghost function After(lease: Lease, events: seq<Event>): State {
    if events == [] then Init()
    else Next(lease, After(lease, events[..|events| - 1]), events[|events| - 1])
  }

  // ---- The invariant ----

  /** What a checkpoint recorded is the present version. */
  predicate Current(stage: Stage, version: nat) {
    match stage
    case Locked => true
    case Checked => true
    case Exporting(from) => from == version
    case Exported(from, to) => from == to == version
    case Capturing(from, to, first) => from == to == first == version
    case Captured(from, to, first, last) => from == to == first == last == version
    case Over => true
  }

  /** While a checkpoint that passed the check holds the lock, the ledger stays quiet. */
  ghost predicate HolderAgrees(lease: Lease, s: State) {
    s.lock.Some? ==>
      && s.lock.value in s.stages && s.stages[s.lock.value] != Over
      && (s.stages[s.lock.value] != Locked ==> Quiet(lease, s.x))
      && Current(s.stages[s.lock.value], s.version)
  }

  predicate Consistent(c: Checkpoint) {
    c.from == c.to == c.first == c.last
  }

  ghost predicate Good(lease: Lease, s: State) {
    Inv(s.x) && HolderAgrees(lease, s) && forall i :: 0 <= i < |s.committed| ==> Consistent(s.committed[i])
  }

  /** Outside the transactions under the lease lock neither a row nor the generation changes. */
  lemma RowsChangeInTransactions(lease: Lease, x: Exec, a: Action)
    requires Enabled(lease, x, a) && !UsesLedger(x, a)
    ensures Do(lease, x, a).rows == x.rows && Do(lease, x, a).generation == x.generation
  {
  }

  lemma ActKeeps(lease: Lease, s: State, a: Action)
    requires !lease.reuse && !lease.overlap && Good(lease, s)
    requires Enabled(lease, s.x, a) && (UsesLedger(s.x, a) ==> s.lock.None?)
    ensures Good(lease, s.(x := Do(lease, s.x, a)))
  {
    DoKeeps(lease, s.x, a);
    if s.lock.Some? {
      RowsChangeInTransactions(lease, s.x, a);
    }
  }

  /** With a quiet ledger nothing that could change the workspace is running. */
  lemma MutateKeeps(lease: Lease, s: State, id: string)
    requires Good(lease, s) && id in s.x.running && id in s.x.rows && !Exempt(lease, s.x.generation, s.x.rows[id])
    ensures Good(lease, s.(version := s.version + 1))
  {
    assert s.x.rows[id].state != Finished;
    assert s.lock.Some? ==> s.stages[s.lock.value] == Locked;
  }

  lemma AdvancedKeeps(lease: Lease, s: State, h: nat)
    requires Good(lease, s) && h in s.stages
    ensures Good(lease, Advanced(lease, s, h))
  {
  }

  lemma NextKeeps(lease: Lease, s: State, e: Event)
    requires !lease.reuse && !lease.overlap && Good(lease, s)
    ensures Good(lease, Next(lease, s, e))
  {
    match e
    case Act(a) =>
      if Enabled(lease, s.x, a) && (UsesLedger(s.x, a) ==> s.lock.None?) {
        ActKeeps(lease, s, a);
      }
    case Mutate(id) =>
      if id in s.x.running && id in s.x.rows && !Exempt(lease, s.x.generation, s.x.rows[id]) {
        MutateKeeps(lease, s, id);
      }
    case Advance(h) =>
      if h in s.stages {
        AdvancedKeeps(lease, s, h);
      }
    case _ =>
  }

  // ---- Theorems ----

  lemma {:induction false} Reachable(lease: Lease, events: seq<Event>)
    requires !lease.reuse && !lease.overlap
    ensures Good(lease, After(lease, events))
  {
    if events != [] {
      Reachable(lease, events[..|events| - 1]);
      NextKeeps(lease, After(lease, events[..|events| - 1]), events[|events| - 1]);
    }
  }

  /** Over all interleavings, the archive and the provider snapshot of every committed
      checkpoint are of one workspace version, with no change while either was taken. */
  lemma CheckpointsAreConsistent(lease: Lease, events: seq<Event>, i: nat)
    requires !lease.reuse && !lease.overlap && i < |After(lease, events).committed|
    ensures var c := After(lease, events).committed[i]; c.from == c.to == c.first == c.last
  {
    Reachable(lease, events);
    assert Consistent(After(lease, events).committed[i]);
  }

  /** Every request the server has accepted and not ended has an unfinished row. */
  ghost predicate Tracked(s: State) {
    forall id :: id in s.x.running ==> id in s.x.rows && s.x.rows[id].state != Finished
  }

  ghost predicate AlwaysTracked(lease: Lease) {
    forall events :: Tracked(After(lease, events))
  }

  ghost predicate AllConsistent(s: State) {
    forall i :: 0 <= i < |s.committed| ==> Consistent(s.committed[i])
  }

  ghost predicate AlwaysConsistent(lease: Lease) {
    forall events :: AllConsistent(After(lease, events))
  }

  // ---- Runs ----

  /** No checkpoint has happened, and the commands are in the given state. */
  ghost predicate Reached(lease: Lease, events: seq<Event>, x: Exec) {
    After(lease, events) == Init().(x := x)
  }

  lemma Continue(lease: Lease, events: seq<Event>, x: Exec, a: Action) returns (longer: seq<Event>)
    requires Reached(lease, events, x) && Enabled(lease, x, a)
    ensures Reached(lease, longer, Do(lease, x, a))
  {
    longer := events + [Act(a)];
    assert longer[..|longer| - 1] == events;
  }

  lemma Go(lease: Lease, events: seq<Event>, s: State, e: Event) returns (longer: seq<Event>)
    requires After(lease, events) == s
    ensures After(lease, longer) == Next(lease, s, e)
  {
    longer := events + [e];
    assert longer[..|longer| - 1] == events;
  }

  /** A running request has been lost track of: a checkpoint finds the ledger quiet, and the
      request changes the workspace while it is exported. */
  lemma InconsistentCheckpoint(lease: Lease, before: seq<Event>, x: Exec, id: string) returns (events: seq<Event>)
    requires Reached(lease, before, x) && Quiet(lease, x)
    requires id in x.running && id in x.rows && !Exempt(lease, x.generation, x.rows[id])
    ensures !AllConsistent(After(lease, events))
  {
    var s := Init().(x := x);
    events := Go(lease, before, s, TakeLock(0));
    s := s.(lock := Some(0), stages := map[0 := Locked]);
    events := Go(lease, events, s, Advance(0));
    s := s.(stages := map[0 := Checked]);
    events := Go(lease, events, s, Advance(0));
    s := s.(stages := map[0 := Exporting(0)]);
    events := Go(lease, events, s, Mutate(id));
    s := s.(version := 1);
    events := Go(lease, events, s, Advance(0));
    s := s.(stages := map[0 := Exported(0, 1)]);
    events := Captures(lease, events, s);
  }

  lemma Captures(lease: Lease, before: seq<Event>, s: State) returns (events: seq<Event>)
    requires After(lease, before) == s && s.lock == Some(0) && s.stages == map[0 := Exported(0, 1)]
    requires s.version == 1 && s.committed == []
    ensures !AllConsistent(After(lease, events))
  {
    events := Go(lease, before, s, Advance(0));
    var t := s.(stages := map[0 := Capturing(0, 1, 1)]);
    events := Go(lease, events, t, Advance(0));
    t := t.(stages := map[0 := Captured(0, 1, 1, 1)]);
    events := Go(lease, events, t, Advance(0));
    assert After(lease, events).committed[0] == Checkpoint(0, 1, 1, 1);
  }

  // ---- What happens when a process identifier is used again ----

  /** A connection that is ready in session "s" and follows the given processes. */
  function Attached(processes: map<string, string>): Conn {
    Conn(Open, 0, Some("s"), true, true, processes, {}, {})
  }

  /** One such connection. */
  function Serving(rows: map<string, Row>, requests: map<string, Request>, processes: map<string, string>,
                   running: set<string>, ended: set<string>): Exec {
    Exec(0, rows, requests, map[0 := Attached(processes)], map["s" := 0], running, ended)
  }

  function Fresh(): Conn {
    Conn(Open, 0, None, false, false, map[], {}, {})
  }

  lemma Connected(lease: Lease) returns (events: seq<Event>)
    ensures Reached(lease, events, Serving(map[], map[], map[], {}, {}))
  {
    events := Continue(lease, [], Init().x, Connect(0));
    var x := Exec(0, map[], map[], map[0 := Fresh()], map[], {}, {});
    events := Continue(lease, events, x, Attach(0, "s"));
    var y := x.(conns := map[0 := Fresh().(session := Some("s"))], owner := map["s" := 0]);
    events := Continue(lease, events, y, Answer(0));
    var z := y.(conns := map[0 := Fresh().(session := Some("s"), answered := true)]);
    events := Continue(lease, events, z, Ready(0));
  }

  lemma FirstRunStarts(lease: Lease, p: string) returns (events: seq<Event>)
    ensures Reached(lease, events,
                    Serving(map["1" := Row("s", Process(p), Active)], map["1" := Request(0, true)],
                            map[p := "1"], {"1"}, {}))
  {
    events := Connected(lease);
    events := Continue(lease, events, Serving(map[], map[], map[], {}, {}), Begin(0, "1", Process(p), true));
    var begun := Serving(map["1" := Row("s", Process(p), Active)], map["1" := Request(0, false)],
                         map[p := "1"], {}, {});
    assert Do(lease, Serving(map[], map[], map[], {}, {}), Begin(0, "1", Process(p), true)) == begun;
    events := Continue(lease, events, begun, Forward("1"));
  }

  /** One process has run as interaction "1" and ended; a read reply finished its row. */
  lemma FirstRunEnds(lease: Lease, p: string) returns (events: seq<Event>)
    ensures Reached(lease, events,
                    Serving(map["1" := Row("s", Process(p), Finished)], map["1" := Request(0, true)],
                            map[], {}, {"1"}))
  {
    events := FirstRunStarts(lease, p);
    var active := map["1" := Row("s", Process(p), Active)];
    var running := Serving(active, map["1" := Request(0, true)], map[p := "1"], {"1"}, {});
    events := Continue(lease, events, running, End("1"));
    var ended := Serving(active, map["1" := Request(0, true)], map[p := "1"], {}, {"1"});
    events := Continue(lease, events, ended, ReadQuiesced(0, "1"));
    assert map[p := "1"] - {p} == map[];
  }

  function SecondRunning(p: string): Exec {
    Serving(map["1" := Row("s", Process(p), Finished), "2" := Row("s", Process(p), Active)],
            map["1" := Request(0, true), "2" := Request(0, true)], map[p := "2"], {"2"}, {"1"})
  }

  /** The identifier is used again. */
  lemma SecondRunStarts(lease: Lease, p: string) returns (events: seq<Event>)
    requires lease.reuse
    ensures Reached(lease, events, SecondRunning(p))
  {
    events := FirstRunEnds(lease, p);
    var first := Serving(map["1" := Row("s", Process(p), Finished)], map["1" := Request(0, true)], map[], {}, {"1"});
    events := Continue(lease, events, first, Begin(0, "2", Process(p), true));
    var second := SecondRunning(p).(requests := map["1" := Request(0, true), "2" := Request(0, false)], running := {});
    assert Do(lease, first, Begin(0, "2", Process(p), true)) == second;
    events := Continue(lease, events, second, Forward("2"));
  }

  /** The state after the quiesced notice of the first run, still on its way, has finished
      the row of the second. */
  function Misread(p: string): Exec {
    SecondRunning(p).(rows := map["1" := Row("s", Process(p), Finished), "2" := Row("s", Process(p), Finished)],
                      conns := map[0 := Attached(map[])])
  }

  lemma LateNoticeLosesTrack(lease: Lease, p: string) returns (events: seq<Event>)
    requires lease.reuse
    ensures Reached(lease, events, Misread(p)) && !Tracked(After(lease, events))
  {
    events := SecondRunStarts(lease, p);
    assert IsProcess(SecondRunning(p).rows["1"], "s", p);
    events := Continue(lease, events, SecondRunning(p), Quiesced(0, p));
    assert map[p := "2"] - {p} == map[];
    assert "2" in After(lease, events).x.running && After(lease, events).x.rows["2"].state == Finished;
  }

  // ---- What happens when attaches to a session overlap ----

  /** A connection that has been answered and works through its answer. */
  function Answered(listed: set<string>): Conn {
    Conn(Open, 0, Some("s"), true, false, map[], {}, listed)
  }

  /** Connection 0 works through its answer while connection 1 serves the session. */
  function Overlapping(listed: set<string>, rows: map<string, Row>, requests: map<string, Request>,
                       running: set<string>): Exec {
    Exec(0, rows, requests, map[0 := Answered(listed), 1 := Attached(map[])], map["s" := 1], running, {})
  }

  lemma FirstAnswered(lease: Lease) returns (events: seq<Event>)
    ensures Reached(lease, events,
                    Exec(0, map[], map[], map[0 := Answered({}), 1 := Fresh()], map["s" := 0], {}, {}))
  {
    events := Continue(lease, [], Init().x, Connect(0));
    var x := Exec(0, map[], map[], map[0 := Fresh()], map[], {}, {});
    events := Continue(lease, events, x, Connect(1));
    x := x.(conns := map[0 := Fresh(), 1 := Fresh()]);
    events := Continue(lease, events, x, Attach(0, "s"));
    x := x.(conns := map[0 := Fresh().(session := Some("s")), 1 := Fresh()], owner := map["s" := 0]);
    events := Continue(lease, events, x, Answer(0));
  }

  lemma BothAttached(lease: Lease) returns (events: seq<Event>)
    requires lease.overlap
    ensures Reached(lease, events, Overlapping({}, map[], map[], {}))
  {
    events := FirstAnswered(lease);
    var x := Exec(0, map[], map[], map[0 := Answered({}), 1 := Fresh()], map["s" := 0], {}, {});
    events := Continue(lease, events, x, Attach(1, "s"));
    x := x.(conns := map[0 := Answered({}), 1 := Fresh().(session := Some("s"))], owner := map["s" := 1]);
    events := Continue(lease, events, x, Answer(1));
    x := x.(conns := map[0 := Answered({}), 1 := Answered({})]);
    events := Continue(lease, events, x, Ready(1));
  }

  lemma WriteStarts(lease: Lease) returns (events: seq<Event>)
    requires lease.overlap
    ensures Reached(lease, events,
                    Overlapping({}, map["w" := Row("s", Filesystem, Active)], map["w" := Request(1, true)], {"w"}))
  {
    events := BothAttached(lease);
    var x := Overlapping({}, map[], map[], {});
    events := Continue(lease, events, x, Begin(1, "w", Filesystem, true));
    x := Overlapping({}, map["w" := Row("s", Filesystem, Active)], map["w" := Request(1, false)], {});
    events := Continue(lease, events, x, Forward("w"));
  }

  /** Connection 1 writes a file; connection 0, which the session has moved on from, lists the
      session's file operations and finishes the row while the write is running. */
  function Overtaken(): Exec {
    Overlapping({"w"}, map["w" := Row("s", Filesystem, Finished)], map["w" := Request(1, true)], {"w"})
  }

  lemma StaleResumeLosesTrack(lease: Lease) returns (events: seq<Event>)
    requires lease.overlap
    ensures Reached(lease, events, Overtaken()) && !Tracked(After(lease, events))
  {
    events := WriteStarts(lease);
    var x := Overlapping({}, map["w" := Row("s", Filesystem, Active)], map["w" := Request(1, true)], {"w"});
    events := Continue(lease, events, x, ListFiles(0));
    assert OpenFiles(x, "s") == {"w"};
    x := Overlapping({"w"}, x.rows, x.requests, {"w"});
    events := Continue(lease, events, x, FinishOld(0, "w"));
    assert "w" in After(lease, events).x.running && After(lease, events).x.rows["w"].state == Finished;
  }

  // ---- The exact conditions ----

  /** The ledger never loses sight of a running request, exactly when clients neither use a
      process identifier twice within a session nor attach to a session again, at the same
      generation, before the answer to the attach before has been delivered. */
  lemma TrackedExactly(lease: Lease)
    ensures AlwaysTracked(lease) <==> !lease.reuse && !lease.overlap
  {
    if lease.reuse {
      var events := LateNoticeLosesTrack(lease, "p");
    } else if lease.overlap {
      var events := StaleResumeLosesTrack(lease);
    } else {
      forall events
        ensures Tracked(After(lease, events))
      {
        Reachable(lease, events);
      }
    }
  }

  /** And then, and only then, every committed checkpoint is of one workspace version. */
  lemma ConsistentExactly(lease: Lease)
    ensures AlwaysConsistent(lease) <==> !lease.reuse && !lease.overlap
  {
    if lease.reuse {
      var p := if 0 in lease.codeMode then lease.codeMode[0] + "'" else "p";
      assert 0 in lease.codeMode ==> |p| != |lease.codeMode[0]|;
      var events := LateNoticeLosesTrack(lease, p);
      events := InconsistentCheckpoint(lease, events, Misread(p), "2");
    } else if lease.overlap {
      var events := StaleResumeLosesTrack(lease);
      events := InconsistentCheckpoint(lease, events, Overtaken(), "w");
    } else {
      forall events
        ensures AllConsistent(After(lease, events))
      {
        Reachable(lease, events);
      }
    }
  }

  // ---- A well-behaved lease gets its checkpoint ----

  /** Every row is finished, or is of the process that hosts code mode at this generation. */
  predicate AllOver(lease: Lease, x: Exec) {
    forall id :: id in x.rows && x.rows[id].state != Finished ==>
      && x.rows[id].kind.Process?
      && x.generation in lease.codeMode && x.rows[id].kind.pid == lease.codeMode[x.generation]
  }

  ghost function Advances(lease: Lease, s: State, h: nat, n: nat): State
    decreases n
  {
    if n == 0 then s else Advances(lease, Next(lease, s, Advance(h)), h, n - 1)
  }

  /** From every state with a free lock, a new checkpoint that nothing disturbs commits the
      present workspace exactly if every row is over; it changes nothing else, and frees the
      lock. */
  lemma CheckpointCommitsExactly(lease: Lease, s: State, h: nat)
    requires s.lock.None? && h !in s.stages
    ensures var v := s.version;
      Advances(lease, Next(lease, s, TakeLock(h)), h, 6) ==
        s.(stages := s.stages[h := Over],
           committed := if AllOver(lease, s.x) then s.committed + [Checkpoint(v, v, v, v)] else s.committed)
  {
    var locked := s.(lock := Some(h), stages := s.stages[h := Locked]);
    if AllOver(lease, s.x) {
      CommitsPresent(lease, locked, h);
      assert locked.stages[h := Over] == s.stages[h := Over];
    } else {
      var over := s.(stages := s.stages[h := Over]);
      assert Next(lease, locked, Advance(h)) == over by {
        assert locked.stages[h := Over] == over.stages;
      }
      StaysOver(lease, over, h, 5);
    }
  }

  lemma {:induction false} StaysOver(lease: Lease, s: State, h: nat, n: nat)
    requires h in s.stages && s.stages[h] == Over
    ensures Advances(lease, s, h, n) == s
    decreases n
  {
    if n > 0 {
      StaysOver(lease, s, h, n - 1);
    }
  }

  lemma CommitsPresent(lease: Lease, s: State, h: nat)
    requires s.lock == Some(h) && h in s.stages && s.stages[h] == Locked && AllOver(lease, s.x)
    ensures var v := s.version;
      Advances(lease, s, h, 6) ==
        s.(lock := None, stages := s.stages[h := Over], committed := s.committed + [Checkpoint(v, v, v, v)])
  {
    var v := s.version;
    var a := s.(stages := s.stages[h := Checked]);
    var b := s.(stages := s.stages[h := Exporting(v)]);
    var c := s.(stages := s.stages[h := Exported(v, v)]);
    var d := s.(stages := s.stages[h := Capturing(v, v, v)]);
    var e := s.(stages := s.stages[h := Captured(v, v, v, v)]);
    var f := s.(lock := None, stages := s.stages[h := Over], committed := s.committed + [Checkpoint(v, v, v, v)]);
    assert Next(lease, s, Advance(h)) == a;
    assert Next(lease, a, Advance(h)) == b;
    assert Next(lease, b, Advance(h)) == c;
    assert Next(lease, c, Advance(h)) == d;
    assert Next(lease, d, Advance(h)) == e;
    assert Next(lease, e, Advance(h)) == f;
    assert Advances(lease, s, h, 6) == Advances(lease, c, h, 3);
  }

  function Rank(stage: Stage): nat {
    match stage
    case Locked => 0 case Checked => 1 case Exporting(_) => 2 case Exported(_, _) => 3
    case Capturing(_, _, _) => 4 case Captured(_, _, _, _) => 5 case Over => 6
  }

  ghost predicate Holding(lease: Lease, s: State, h: nat) {
    s.lock == Some(h) && h in s.stages && s.stages[h] != Over && (s.stages[h] == Locked ==> AllOver(lease, s.x))
  }

  /** Other events than its own steps, its abort and the loss of its lock. */
  predicate Elsewhere(e: Event, h: nat) {
    e != Advance(h) && e != Abort(h) && e != LoseLock(h)
  }

  lemma ElsewhereKeeps(lease: Lease, s: State, h: nat, e: Event)
    requires Holding(lease, s, h) && Elsewhere(e, h)
    ensures var t := Next(lease, s, e); Holding(lease, t, h) && t.stages[h] == s.stages[h] && t.committed == s.committed
  {
    if e.Act? && Enabled(lease, s.x, e.action) && (UsesLedger(s.x, e.action) ==> s.lock.None?) {
      RowsChangeInTransactions(lease, s.x, e.action);
    }
  }

  ghost function From(lease: Lease, s: State, events: seq<Event>): State {
    if events == [] then s else Next(lease, From(lease, s, events[..|events| - 1]), events[|events| - 1])
  }

  function Count(events: seq<Event>, h: nat): nat {
    if events == [] then 0
    else Count(events[..|events| - 1], h) + if events[|events| - 1] == Advance(h) then 1 else 0
  }

  predicate Unhindered(events: seq<Event>, h: nat) {
    forall i :: 0 <= i < |events| ==> events[i] != Abort(h) && events[i] != LoseLock(h)
  }

  /** Whatever commands, connections and other checkpoints do in between, the checkpoint that
      holds the lock gets on with each of its steps, and nothing else is committed. */
  lemma {:induction false} HolderGetsOn(lease: Lease, s: State, h: nat, events: seq<Event>)
    requires Holding(lease, s, h) && s.stages[h] == Locked && Unhindered(events, h) && Count(events, h) <= 5
    ensures var t := From(lease, s, events);
      Holding(lease, t, h) && Rank(t.stages[h]) == Count(events, h) && t.committed == s.committed
  {
    if events != [] {
      var before, e := events[..|events| - 1], events[|events| - 1];
      HolderGetsOn(lease, s, h, before);
      if e != Advance(h) {
        ElsewhereKeeps(lease, From(lease, s, before), h, e);
      }
    }
  }

  /** And its sixth step commits. */
  lemma HolderCommits(lease: Lease, s: State, h: nat, events: seq<Event>)
    requires Holding(lease, s, h) && s.stages[h] == Locked && Unhindered(events, h) && Count(events, h) == 5
    ensures var t := Next(lease, From(lease, s, events), Advance(h));
      && t.lock.None? && |t.committed| == |s.committed| + 1 && t.committed[..|s.committed|] == s.committed
  {
    HolderGetsOn(lease, s, h, events);
  }

  /** A checkpoint that has lost its lock never commits, whatever happens and however far it
      goes on. */
  lemma {:induction false} LostLockNeverCommits(lease: Lease, s: State, h: nat, events: seq<Event>)
    requires s.lock == Some(h) && h in s.stages
    ensures var t := From(lease, Next(lease, s, LoseLock(h)), events);
      h in t.stages && t.lock != Some(h) && Next(lease, t, Advance(h)).committed == t.committed
  {
    if events != [] {
      LostLockNeverCommits(lease, s, h, events[..|events| - 1]);
    }
  }
}
