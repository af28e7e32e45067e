/** How the coordinator of a child provisioning ends when it is left alone: from every state
    it can be in, and after any one fault on its way. */
module ChildCompletion {
  import opened ChildProtocol
  import opened ChildSafety
  import opened ChildOutcome

  // ---- Steps in which nothing goes wrong ----

  /** Transactions commit, calls are answered, preparing succeeds, and identifiers are new. */
  predicate Favourable(d: Durable, l: Luck) {
    l.tx.Done? && l.call.Answered? && l.preparing.Ready? && l.left == 0 && Fresh(d, l.id)
  }

  function Steps(c: Setup, s: World, lucks: seq<Luck>): World
    decreases |lucks|
  {
    if lucks == [] || !Ok(s.d, s.control) then s else Steps(c, Next(c, s, Work(lucks[0])), lucks[1..])
  }

  predicate Smooth(c: Setup, s: World, lucks: seq<Luck>)
    decreases |lucks|
  {
    lucks != [] && Ok(s.d, s.control) ==>
      Favourable(s.d, lucks[0]) && Smooth(c, Next(c, s, Work(lucks[0])), lucks[1..])
  }

  lemma {:induction false} StepsEnded(c: Setup, s: World, lucks: seq<Luck>)
    requires s.control == Idle && |s.d.slots| == 4
    ensures Steps(c, s, lucks) == s
  {
    if lucks != [] {
      assert Next(c, s, Work(lucks[0])) == s;
      StepsEnded(c, s, lucks[1..]);
    }
  }

  /** An identifier above all that were used. */
  function NewId(d: Durable): nat
    requires |d.slots| == 4
  {
    d.slots[0].id + d.slots[1].id + d.slots[2].id + d.slots[3].id + 1
  }

  /** There always are such steps. */
  lemma {:induction false} SmoothExists(c: Setup, s: World, count: nat, n: nat) returns (lucks: seq<Luck>)
    requires Inv(c, s)
    ensures |lucks| == n && Smooth(c, s, lucks)
    decreases n
  {
    if n == 0 {
      lucks := [];
    } else {
      var l := Luck(Done, Answered, NewId(s.d), Ready(count), 0);
      NextKeeps(c, s, Work(l));
      var rest := SmoothExists(c, Next(c, s, Work(l)), count, n - 1);
      lucks := [l] + rest;
      assert lucks[1..] == rest;
    }
  }

  // ---- The coordinator that has met no failure ----

  /** What is waited for was not dropped by the provider. */
  predicate Promising(d: Durable, pc: RunPc) {
    pc.Await? && pc.i < |d.slots| ==> d.slots[pc.i].requested || d.slots[pc.i].stored
  }

  predicate OnCourse(c: Setup, s: World, pc: RunPc) {
    Inv(c, s) && Owns(s) && s.control == Run(pc) && Promising(s.d, pc)
  }

  function Later(pc: RunPc): RunPc {
    match pc
    case Check => Ask(0) case Ask(i) => Await(i) case Await(i) => Record(i) case Record(i) => AfterRecord(i)
    case Export => Discard(1) case Discard(i) => if i == 1 then Discard(0) else Ask(2)
    case Upload => Ask(3) case _ => Commit
  }

  function ToGo(pc: RunPc): nat {
    match pc
    case Check => 19
    case Ask(i) => if i == 0 then 18 else if i == 1 then 15 else if i == 2 then 9 else 5
    case Await(i) => if i == 0 then 17 else if i == 1 then 14 else if i == 2 then 8 else 4
    case Record(i) => if i == 0 then 16 else if i == 1 then 13 else if i == 2 then 7 else 3
    case Export => 12 case Discard(i) => if i == 1 then 11 else 10
    case Upload => 6 case Prepare => 2 case Commit => 1
  }

  lemma StepGoesOn(c: Setup, d: Durable, pc: RunPc, l: Luck)
    requires Facts(c, d) && RunKnows(d, pc) && Promising(d, pc) && d.op.InProgress? && Favourable(d, l) && pc != Commit
    ensures var step := RunStep(c, d, true, pc, l);
      step.control == Run(Later(pc)) && step.d.op.InProgress? && Promising(step.d, Later(pc))
    ensures ToGo(Later(pc)) == ToGo(pc) - 1
  {
  }

  lemma GoesOn(c: Setup, s: World, pc: RunPc, lucks: seq<Luck>) returns (t: World, next: RunPc)
    requires OnCourse(c, s, pc) && pc != Commit && lucks != [] && Smooth(c, s, lucks)
    ensures OnCourse(c, t, next) && ToGo(next) == ToGo(pc) - 1
    ensures Smooth(c, t, lucks[1..]) && Steps(c, s, lucks) == Steps(c, t, lucks[1..])
  {
    t, next := Next(c, s, Work(lucks[0])), Later(pc);
    NextKeeps(c, s, Work(lucks[0]));
    StepGoesOn(c, s.d, pc, lucks[0]);
  }

  /** The child is there, with its sandbox and its snapshot; nothing else is left. */
  predicate Provisioned(s: World) {
    && s.control == Idle && s.d.op == Succeeded && s.d.lease && s.d.preparation == Committed && s.d.open == 0
    && |s.d.slots| == 4 && |s.d.ledger| == 4
    && !s.d.slots[0].stored && !s.d.slots[1].stored && s.d.slots[2].stored && s.d.slots[3].stored
    && s.d.ledger[0].state == Reclaimed && s.d.ledger[1].state == Reclaimed
    && s.d.ledger[2].state == Adopted && s.d.ledger[3].state == Adopted
  }

  /** A final transaction that lands records success, whether or not its reply arrives. */
  lemma CommitSucceeds(c: Setup, s: World, l: Luck)
    requires Inv(c, s) && Owns(s) && s.control == Run(Commit) && Lands(l.tx)
    ensures var t := Next(c, s, Work(l)); t.d.op == Succeeded && (l.tx.Done? ==> Provisioned(t))
  {
    assert MatchesAt(s.d, Held(4)[0], 0) && MatchesAt(s.d, Held(4)[1], 1);
    assert MatchesAt(s.d, Held(4)[2], 2) && MatchesAt(s.d, Held(4)[3], 3);
  }

  lemma CompletesNow(c: Setup, s: World, lucks: seq<Luck>)
    requires OnCourse(c, s, Commit) && lucks != [] && Smooth(c, s, lucks)
    ensures Provisioned(Steps(c, s, lucks))
  {
    CommitSucceeds(c, s, lucks[0]);
    StepsEnded(c, Next(c, s, Work(lucks[0])), lucks[1..]);
  }

  lemma {:induction false} RunSucceeds(c: Setup, s: World, pc: RunPc, lucks: seq<Luck>)
    requires OnCourse(c, s, pc) && Smooth(c, s, lucks) && |lucks| >= ToGo(pc)
    ensures Provisioned(Steps(c, s, lucks))
    decreases ToGo(pc)
  {
    if pc == Commit {
      CompletesNow(c, s, lucks);
    } else {
      var t, next := GoesOn(c, s, pc, lucks);
      RunSucceeds(c, t, next, lucks[1..]);
    }
  }

  // ---- The coordinator that handles a failure ----

  predicate CleaningUp(c: Setup, s: World, pc: CleanPc, v: Vars) {
    Inv(c, s) && Owns(s) && s.control == Clean(pc, v)
  }

  /** Nothing has failed while cleaning up, no request is unaccounted for, and no preparation
      can be left. */
  predicate Regular(v: Vars) {
    !v.failed && !v.ambiguous && v.settled
  }

  function ToClean(pc: CleanPc): nat {
    match pc
    case Abort => 7 case DropHeld(left) => left + 2 case Fail => 1
  }

  lemma AbortGoesOn(c: Setup, d: Durable, v: Vars, l: Luck)
    requires Facts(c, d) && CleanKnows(d, Abort, v) && d.op.InProgress? && Favourable(d, l)
    ensures var step := CleanStep(d, true, Abort, v, l);
      && step.d.op.InProgress? && step.control.Clean? && ToClean(step.control.clean) < 7
      && (Regular(step.control.vars) <==> Regular(v))
  {
  }

  lemma DropGoesOn(d: Durable, left: nat, v: Vars, l: Luck)
    requires CleanKnows(d, DropHeld(left), v) && d.op.InProgress? && l.tx.Done? && l.call.Answered?
    ensures var step := CleanStep(d, true, DropHeld(left), v, l);
      && step.d.op.InProgress? && step.control.Clean? && ToClean(step.control.clean) < left + 2
      && (Regular(step.control.vars) <==> Regular(v))
  {
  }

  lemma CleanGoesOn(c: Setup, s: World, pc: CleanPc, v: Vars, lucks: seq<Luck>)
    returns (t: World, next: CleanPc, w: Vars)
    requires CleaningUp(c, s, pc, v) && pc != Fail && lucks != [] && Smooth(c, s, lucks)
    ensures CleaningUp(c, t, next, w) && ToClean(next) < ToClean(pc) && (Regular(w) <==> Regular(v))
    ensures Smooth(c, t, lucks[1..]) && Steps(c, s, lucks) == Steps(c, t, lucks[1..])
  {
    NextKeeps(c, s, Work(lucks[0]));
    if pc.Abort? {
      AbortGoesOn(c, s.d, v, lucks[0]);
    } else {
      DropGoesOn(s.d, pc.left, v, lucks[0]);
    }
    t := Next(c, s, Work(lucks[0]));
    next, w := t.control.clean, t.control.vars;
  }

  lemma FailEnds(c: Setup, s: World, v: Vars, lucks: seq<Luck>) returns (last: World)
    requires CleaningUp(c, s, Fail, v) && lucks != [] && Smooth(c, s, lucks)
    ensures last == Steps(c, s, lucks) && last.control == Idle
    ensures last.d.op == if Regular(v) then FailedTerminal else InProgress
  {
    last := Next(c, s, Work(lucks[0]));
    StepsEnded(c, last, lucks[1..]);
  }

  lemma {:induction false} CleanEnds(c: Setup, s: World, pc: CleanPc, v: Vars, lucks: seq<Luck>) returns (last: World)
    requires CleaningUp(c, s, pc, v) && Smooth(c, s, lucks) && |lucks| >= ToClean(pc)
    ensures last == Steps(c, s, lucks) && last.control == Idle
    ensures last.d.op == if Regular(v) then FailedTerminal else InProgress
    decreases ToClean(pc)
  {
    if pc == Fail {
      last := FailEnds(c, s, v, lucks);
    } else {
      var t, next, w := CleanGoesOn(c, s, pc, v, lucks);
      last := CleanEnds(c, t, next, w, lucks[1..]);
    }
  }

  // ---- From every state of the coordinator ----

  /** How the operation will be recorded, as the present state tells. */
  function Prospect(s: World): Operation {
    match s.control
    case Run(pc) => if Promising(s.d, pc) then Succeeded else InProgress
    case Clean(pc, v) => if Regular(v) then FailedTerminal else InProgress
    case _ => FailedTerminal
  }

  lemma ToFailure(c: Setup, s: World, lucks: seq<Luck>) returns (t: World, v: Vars)
    requires Inv(c, s) && Owns(s) && lucks != [] && Smooth(c, s, lucks)
    requires s.control.LateCaught? || (s.control.Run? && !Promising(s.d, s.control.run))
    ensures CleaningUp(c, t, Abort, v) && (Regular(v) <==> s.control.LateCaught?)
    ensures Smooth(c, t, lucks[1..]) && Steps(c, s, lucks) == Steps(c, t, lucks[1..])
  {
    NextKeeps(c, s, Work(lucks[0]));
    t := Next(c, s, Work(lucks[0]));
    v := t.control.vars;
  }

  lemma EndsAsExpected(c: Setup, s: World, lucks: seq<Luck>) returns (last: World)
    requires Inv(c, s) && Owns(s) && Coordinating(s.control) && Smooth(c, s, lucks) && |lucks| >= 19
    ensures last == Steps(c, s, lucks) && last.control == Idle && last.d.op == Prospect(s)
    ensures s.control.Run? && Promising(s.d, s.control.run) ==> Provisioned(last)
  {
    if s.control.Clean? {
      last := CleanEnds(c, s, s.control.clean, s.control.vars, lucks);
    } else if s.control.Run? && Promising(s.d, s.control.run) {
      last := Steps(c, s, lucks);
      RunSucceeds(c, s, s.control.run, lucks);
    } else {
      var t, v := ToFailure(c, s, lucks);
      last := CleanEnds(c, t, Abort, v, lucks[1..]);
    }
  }

  /** From every reachable state in which the coordinator works and owns the operation,
      nineteen steps without a disturbance free the lock and record what the state tells: a
      provisioning still on its way as succeeded, unless the provider dropped the resource
      it waits for; a handled failure as failed, unless cleaning up failed or something may
      be left that it does not know of. */
  lemma CoordinatorEnds(c: Setup, events: seq<Event>, lucks: seq<Luck>)
    requires var s := After(c, events); Owns(s) && Coordinating(s.control) && Smooth(c, s, lucks) && |lucks| >= 19
    ensures var s := After(c, events); var t := Steps(c, s, lucks);
      && t.control == Idle && t.d.op == Prospect(s)
      && (s.control.Run? && Promising(s.d, s.control.run) ==> Provisioned(t))
  {
    Reachable(c, events);
    var last := EndsAsExpected(c, After(c, events), lucks);
  }

  /** In particular, for every request and every limit, an undisturbed provisioning ends
      with the child. */
  lemma UndisturbedSucceeds(c: Setup, lucks: seq<Luck>)
    requires Smooth(c, Next(c, Init(), Acquire(0)), lucks) && |lucks| >= 19
    ensures Provisioned(Steps(c, Next(c, Init(), Acquire(0)), lucks))
  {
    var events := Continue(c, [], Init(), Acquire(0));
    CoordinatorEnds(c, events, lucks);
  }

  // ---- One fault ----

  /** How a provisioning ends in which one step, at `pc`, goes any way it can. */
  function AfterFault(pc: RunPc, l: Luck): Operation {
    match pc
    case Ask(_) => Succeeded
    case Await(_) => if l.call.Answered? && l.tx.Done? then Succeeded else InProgress
    case Record(_) => if l.tx.Done? then Succeeded else FailedTerminal
    case Prepare =>
      if l.preparing.Ready? then Succeeded else if l.preparing.GivenUp? then FailedTerminal else InProgress
    case Commit => if Lands(l.tx) then Succeeded else FailedTerminal
    case _ => if l.call.Answered? && l.tx.Done? then Succeeded else FailedTerminal
  }

  lemma FaultLeads(c: Setup, d: Durable, pc: RunPc, l: Luck)
    requires Facts(c, d) && RunKnows(d, pc) && Promising(d, pc) && d.op.InProgress? && Fresh(d, l.id) && pc != Commit
    ensures var step := RunStep(c, d, true, pc, l); var outcome := AfterFault(pc, l);
      && step.d.op.InProgress?
      && (outcome == Succeeded ==> step.control.Run? && Promising(step.d, step.control.run))
      && (outcome != Succeeded ==>
            step.control.Clean? && (Regular(step.control.vars) <==> outcome == FailedTerminal))
  {
  }

  lemma FaultProspect(c: Setup, s: World, pc: RunPc, l: Luck)
    requires OnCourse(c, s, pc) && Fresh(s.d, l.id)
    ensures var t := Next(c, s, Work(l));
      if t.d.op.InProgress? then Owns(t) && Coordinating(t.control) && Prospect(t) == AfterFault(pc, l)
      else t.d.op == AfterFault(pc, l)
  {
    if pc != Commit {
      FaultLeads(c, s.d, pc, l);
    } else if Lands(l.tx) {
      CommitSucceeds(c, s, l);
    }
  }

  /** A finished operation stays as it is recorded. */
  lemma RecordedStays(c: Setup, d: Durable, control: Control, l: Luck)
    requires Ok(d, control) && !d.op.InProgress?
    ensures WorkStep(c, d, false, control, l).d.op == d.op
  {
  }

  lemma {:induction false} RecordStays(c: Setup, s: World, lucks: seq<Luck>)
    requires !s.d.op.InProgress?
    ensures Steps(c, s, lucks).d.op == s.d.op
    decreases |lucks|
  {
    if lucks != [] && Ok(s.d, s.control) {
      RecordedStays(c, s.d, s.control, lucks[0]);
      RecordStays(c, Next(c, s, Work(lucks[0])), lucks[1..]);
    }
  }

  /** From every reachable state of a provisioning on its way, one step that goes any way it
      can, followed by steps without a disturbance, is recorded as `AfterFault` says: a lost
      reply of the final transaction is found out; a resource request without an answer, or
      a preparation left behind, leaves the operation to a reconciler; everything else is
      taken back and recorded as failed. */
  lemma OneFault(c: Setup, events: seq<Event>, pc: RunPc, l: Luck, lucks: seq<Luck>)
    requires var s := After(c, events);
      && Owns(s) && Ok(s.d, s.control) && s.control == Run(pc) && Promising(s.d, pc) && Fresh(s.d, l.id)
      && Smooth(c, Next(c, s, Work(l)), lucks) && |lucks| >= 19
    ensures Steps(c, Next(c, After(c, events), Work(l)), lucks).d.op == AfterFault(pc, l)
  {
    Reachable(c, events);
    var s := After(c, events);
    FaultProspect(c, s, pc, l);
    NextKeeps(c, s, Work(l));
    var t := Next(c, s, Work(l));
    if t.d.op.InProgress? {
      var last := EndsAsExpected(c, t, lucks);
    } else {
      RecordStays(c, t, lucks);
    }
  }

  // ---- A fault while a failure is handled ----

  /** Whether the step counts as done, for a coordinator in the middle of cleaning up. */
  predicate Seen(pc: CleanPc, v: Vars, l: Luck) {
    match pc
    case Abort => v.prepared ==> l.call.Answered? && l.left == 0
    case DropHeld(left) =>
      0 < left <= |v.resources| && !v.resources[left - 1].reclaimed ==> l.call.Answered? && l.tx.Done?
    case Fail => Lands(l.tx)
  }

  lemma FaultWhileCleaning(c: Setup, d: Durable, pc: CleanPc, v: Vars, l: Luck)
    requires Facts(c, d) && CleanKnows(d, pc, v) && d.op.InProgress? && l.left <= d.open
    ensures var step := CleanStep(d, true, pc, v, l);
      if pc == Fail
      then step.control == Idle && step.d.op == if Regular(v) && Seen(pc, v, l) then FailedTerminal else InProgress
      else
        && step.d.op.InProgress? && step.control.Clean?
        && (Regular(step.control.vars) <==> Regular(v) && Seen(pc, v, l))
  {
  }

  /** From every reachable state in which the coordinator handles a failure, one step that
      goes any way it can, followed by steps without a disturbance, is recorded as failed
      exactly if the handling was in order so far and the step counts as done. */
  lemma SecondFault(c: Setup, events: seq<Event>, l: Luck, lucks: seq<Luck>)
    requires var s := After(c, events);
      && Owns(s) && Ok(s.d, s.control) && s.control.Clean? && l.left <= s.d.open
      && Smooth(c, Next(c, s, Work(l)), lucks) && |lucks| >= 19
    ensures var s := After(c, events); var pc, v := s.control.clean, s.control.vars;
      Steps(c, Next(c, s, Work(l)), lucks).d.op ==
        if Regular(v) && Seen(pc, v, l) then FailedTerminal else InProgress
  {
    Reachable(c, events);
    var s := After(c, events);
    FaultWhileCleaning(c, s.d, s.control.clean, s.control.vars, l);
    NextKeeps(c, s, Work(l));
    if s.control.clean == Fail {
      StepsEnded(c, Next(c, s, Work(l)), lucks);
    } else {
      var last := EndsAsExpected(c, Next(c, s, Work(l)), lucks);
    }
  }

  // ---- Replies that do not arrive ----

  /** Whether the reply to a transaction arrives makes no difference to what it leaves. */
  lemma LostReplyLands(c: Setup, s: World, l: Luck)
    requires Ok(s.d, s.control)
    ensures Next(c, s, Work(l.(tx := LostReply))).d == Next(c, s, Work(l.(tx := Done))).d
  {
  }

  /** Nor does the answer to a call, for the resources the provider has. */
  lemma LostAnswerTakesEffect(c: Setup, s: World, l: Luck, i: nat)
    requires Ok(s.d, s.control) && i < 4
    ensures var e := Next(c, s, Work(l.(call := Unanswered))).d; var f := Next(c, s, Work(l.(call := Answered))).d;
      i < |e.slots| && i < |f.slots| && e.slots[i].stored == f.slots[i].stored
  {
  }

  /** A recovery deletes a resource the ledger still lists only when it is that entry's
      turn, and then marks the entry if the deletion was answered. */
  lemma RecoverySparesListed(c: Setup, d: Durable, owns: bool, pc: RecoverPc, l: Luck, i: nat)
    requires RecoverOk(d, pc) && i < |d.ledger| && i < 4 && d.ledger[i].state != Reclaimed
    ensures var e := RecoverStep(c, d, owns, pc, l).d;
      d.slots[i].stored && !e.slots[i].stored ==>
        && pc == DropListed(i) && owns && d.ledger[i].state == Allocated
        && (l.call.Answered? && Lands(l.tx) ==> e.ledger[i].state == Reclaimed)
  {
  }
}
