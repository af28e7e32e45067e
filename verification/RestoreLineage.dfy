/** Leases, the tickets that admit clients to them, and the chains that restoring a lost or
    released lease into a new one forms. */
module RestoreLineage {
  import opened Wrappers

  datatype LeaseState = Provisioning | Active | Paused | ReleasePending | Released | Lost | Failed

  /** Who a lease is for; a restore must ask for the same. */
  datatype Party = Party(agent: string, ownerAgent: Option<string>, ownerLease: Option<string>, template: string)

  /** `source` is the lease this one replaces; `order` its place in the order of creation. */
  datatype Lease = Lease(state: LeaseState, party: Party, sandbox: string, latest: string, generation: nat,
                         source: Option<string>, order: nat)

  datatype Ticket = Ticket(lease: string, generation: nat, consumed: bool, revoked: bool)

  type Leases = map<string, Lease>

  type Tickets = map<string, Ticket>

  predicate Live(ticket: Ticket) {
    !ticket.consumed && !ticket.revoked
  }

  function Revoked(tickets: Tickets, lease: string): Tickets {
    map h | h in tickets :: if tickets[h].lease == lease then tickets[h].(revoked := true) else tickets[h]
  }

  /** The lease's tickets are no longer any good, and nobody else's has changed. */
  predicate OnlyRevoked(before: Tickets, after: Tickets, lease: string) {
    && after.Keys == before.Keys
    && (forall h :: h in before && before[h].lease == lease ==> after[h] == before[h].(revoked := true))
    && (forall h :: h in before && before[h].lease != lease ==> after[h] == before[h])
  }

  predicate Replaced(leases: Leases, id: string) {
    exists other :: other in leases && leases[other].source == Some(id)
  }

  // ---- What every operation keeps ----

  /** Sources exist and were created earlier. */
  ghost predicate Founded(leases: Leases) {
    forall id, source :: id in leases && leases[id].source == Some(source) ==>
      source in leases && leases[source].order < leases[id].order
  }

  predicate OneReplacement(leases: Leases) {
    forall i, j :: i in leases && j in leases && SameSource(leases[i], leases[j]) ==> i == j
  }

  predicate SameSource(a: Lease, b: Lease) {
    a.source.Some? && a.source == b.source
  }

  predicate ReplacedReleased(leases: Leases) {
    forall id, source :: id in leases && source in leases && leases[id].source == Some(source) ==>
      leases[source].state == Released
  }

  /** A live ticket is for an active lease, at its current generation, and the only one. */
  predicate TicketsCurrent(leases: Leases, tickets: Tickets) {
    && (forall h :: h in tickets && Live(tickets[h]) ==>
          && tickets[h].lease in leases && leases[tickets[h].lease].state == Active
          && tickets[h].generation == leases[tickets[h].lease].generation)
    && (forall h, g :: h in tickets && g in tickets && BothLive(tickets[h], tickets[g]) ==> h == g)
  }

  predicate BothLive(t: Ticket, u: Ticket) {
    Live(t) && Live(u) && t.lease == u.lease
  }

  ghost predicate Sound(leases: Leases, tickets: Tickets) {
    Founded(leases) && OneReplacement(leases) && ReplacedReleased(leases) && TicketsCurrent(leases, tickets)
  }

  /** What never changes back: leases and their lineage stay, released leases stay released
      and generations do not fall. */
  ghost predicate Evolves(before: Leases, after: Leases) {
    forall id :: id in before ==>
      && id in after && after[id].source == before[id].source && after[id].party == before[id].party
      && (before[id].state == Released ==> after[id].state == Released)
      && before[id].generation <= after[id].generation
  }

  /** Changing a lease in place, with its tickets revoked, keeps everything as long as a
      released lease stays released. */
  lemma UpdateKeeps(leases: Leases, tickets: Tickets, id: string, lease: Lease)
    requires Sound(leases, tickets) && id in leases
    requires lease.source == leases[id].source && lease.party == leases[id].party && lease.order == leases[id].order
    requires leases[id].generation <= lease.generation && (leases[id].state == Released ==> lease.state == Released)
    ensures Sound(leases[id := lease], Revoked(tickets, id)) && Evolves(leases, leases[id := lease])
  {
    LineageKept(leases, id, lease);
    RevokedCurrent(leases, tickets, id, lease);
  }

  lemma LineageKept(leases: Leases, id: string, lease: Lease)
    requires Founded(leases) && OneReplacement(leases) && ReplacedReleased(leases) && id in leases
    requires lease.source == leases[id].source && lease.order == leases[id].order
    requires leases[id].state == Released ==> lease.state == Released
    ensures var after := leases[id := lease]; Founded(after) && OneReplacement(after) && ReplacedReleased(after)
  {
    var after := leases[id := lease];
    forall i, source | i in after && after[i].source == Some(source)
      ensures source in after && after[source].order < after[i].order && after[source].state == Released
    {
      assert leases[i].source == Some(source);
    }
    forall i, j | i in after && j in after && SameSource(after[i], after[j])
      ensures i == j
    {
      assert SameSource(leases[i], leases[j]);
    }
  }

  lemma RevokedCurrent(leases: Leases, tickets: Tickets, id: string, lease: Lease)
    requires TicketsCurrent(leases, tickets) && id in leases
    ensures TicketsCurrent(leases[id := lease], Revoked(tickets, id))
  {
    var after := Revoked(tickets, id);
    forall h, g | h in after && g in after && BothLive(after[h], after[g])
      ensures h == g
    {
      assert BothLive(tickets[h], tickets[g]);
    }
  }

  /** Adding a replacement for a lease that has none. */
  lemma ReplaceKeeps(leases: Leases, tickets: Tickets, id: string, lease: Lease)
    requires Sound(leases, tickets) && id !in leases
    requires lease.source.Some? && lease.source.value in leases && !Replaced(leases, lease.source.value)
    requires leases[lease.source.value].state == Released && leases[lease.source.value].order < lease.order
    ensures Sound(leases[id := lease], tickets) && Evolves(leases, leases[id := lease])
  {
    var after := leases[id := lease];
    assert forall i :: i in leases ==> after[i] == leases[i];
    forall i, j | i in after && j in after && SameSource(after[i], after[j])
      ensures i == j
    {
      assert i in leases && j in leases ==> SameSource(leases[i], leases[j]);
    }
  }

  // ---- The store ----

  class LeaseStore {
    var leases: Leases
    var tickets: Tickets
    var next: nat

    ghost predicate Valid()
      reads this
    {
      Sound(leases, tickets) && forall id :: id in leases ==> leases[id].order < next
    }

    constructor ()
      ensures Valid() && leases == map[] && tickets == map[]
    {
      leases, tickets, next := map[], map[], 0;
    }

    method Create(id: string, party: Party, sandbox: string, snapshot: string) returns (ok: bool)
      requires Valid()
      modifies this
      ensures Valid() && Evolves(old(leases), leases) && tickets == old(tickets)
      ensures ok <==> id !in old(leases)
      ensures ok ==> leases == old(leases)[id := Lease(Active, party, sandbox, snapshot, 0, None, old(next))]
      ensures !ok ==> leases == old(leases)
    {
      if id in leases { return false; }
      leases := leases[id := Lease(Active, party, sandbox, snapshot, 0, None, next)];
      next := next + 1;
      ok := true;
    }

    /** A lost or released lease may be replaced once, by a request for the same party and
        its latest snapshot, which must be available. */
    predicate Restorable(source: string, party: Party, snapshot: string, available: bool)
      reads this
    {
      && source in leases && (leases[source].state == Lost || leases[source].state == Released)
      && leases[source].latest == snapshot && leases[source].party == party
      && !Replaced(leases, source) && available
    }

    method Restore(source: string, id: string, party: Party, sandbox: string, snapshot: string, base: string,
                   available: bool) returns (ok: bool)
      requires Valid()
      modifies this
      ensures Valid() && Evolves(old(leases), leases)
      ensures ok <==>
        && source in old(leases) && (old(leases)[source].state == Lost || old(leases)[source].state == Released)
        && old(leases)[source].latest == snapshot
        && old(leases)[source].party.agent == party.agent && old(leases)[source].party.template == party.template
        && old(leases)[source].party.ownerAgent == party.ownerAgent
        && old(leases)[source].party.ownerLease == party.ownerLease
        && (forall l :: l in old(leases) ==> old(leases)[l].source != Some(source))
        && available && id !in old(leases)
      ensures ok ==>
        && leases == old(leases)[id := Lease(Active, party, sandbox, base, 0, Some(source), old(next))]
                                [source := old(leases)[source].(state := Released)]
        && tickets == Revoked(old(tickets), source) && OnlyRevoked(old(tickets), tickets, source)
      ensures !ok ==> leases == old(leases) && tickets == old(tickets)
    {
      if !Restorable(source, party, snapshot, available) || id in leases { return false; }
      ghost var released := leases[source := leases[source].(state := Released)];
      ghost var lease := Lease(Active, party, sandbox, base, 0, Some(source), next);
      UpdateKeeps(leases, tickets, source, leases[source].(state := Released));
      assert !Replaced(released, source);
      ReplaceKeeps(released, Revoked(tickets, source), id, lease);
      assert leases[id := lease][source := leases[source].(state := Released)] == released[id := lease];
      leases := leases[id := Lease(Active, party, sandbox, base, 0, Some(source), next)];
      next := next + 1;
      tickets := Revoked(tickets, source);
      if leases[source].state == Lost {
        leases := leases[source := leases[source].(state := Released)];
      }
      assert leases == released[id := lease];
      ok := true;
    }

    method Checkpoint(id: string, snapshot: string) returns (ok: bool)
      requires Valid()
      modifies this
      ensures Valid() && Evolves(old(leases), leases) && tickets == old(tickets)
      ensures ok <==> id in old(leases) && (old(leases)[id].state == Active || old(leases)[id].state == Paused)
      ensures leases == if ok then old(leases)[id := old(leases)[id].(latest := snapshot)] else old(leases)
    {
      if id !in leases || (leases[id].state != Active && leases[id].state != Paused) { return false; }
      leases := leases[id := leases[id].(latest := snapshot)];
      ok := true;
    }

    method BeginRelease(id: string) returns (ok: bool)
      requires Valid()
      modifies this
      ensures Valid() && Evolves(old(leases), leases)
      ensures ok <==> id in old(leases) && old(leases)[id].state != Provisioning
      ensures tickets == if ok then Revoked(old(tickets), id) else old(tickets)
      ensures ok ==> OnlyRevoked(old(tickets), tickets, id)
      ensures leases ==
              if ok && old(leases)[id].state != Released
              then old(leases)[id := old(leases)[id].(state := ReleasePending)] else old(leases)
    {
      if id !in leases || leases[id].state == Provisioning { return false; }
      UpdateKeeps(leases, tickets, id, leases[id]);
      assert leases[id := leases[id]] == leases;
      if leases[id].state != Released {
        UpdateKeeps(leases, tickets, id, leases[id].(state := ReleasePending));
      }
      tickets := Revoked(tickets, id);
      if leases[id].state == Released { return true; }
      leases := leases[id := leases[id].(state := ReleasePending)];
      ok := true;
    }

    method CompleteRelease(id: string) returns (ok: bool)
      requires Valid()
      modifies this
      ensures Valid() && Evolves(old(leases), leases)
      ensures ok <==>
        id in old(leases) && (old(leases)[id].state == Released || old(leases)[id].state == ReleasePending)
      ensures tickets == if ok then Revoked(old(tickets), id) else old(tickets)
      ensures ok ==> OnlyRevoked(old(tickets), tickets, id)
      ensures leases == if ok then old(leases)[id := old(leases)[id].(state := Released)] else old(leases)
    {
      if id !in leases || (leases[id].state != Released && leases[id].state != ReleasePending) { return false; }
      UpdateKeeps(leases, tickets, id, leases[id].(state := Released));
      tickets := Revoked(tickets, id);
      leases := leases[id := leases[id].(state := Released)];
      ok := true;
    }

    /** Moves the lease to a new generation, so that no earlier ticket admits anyone. */
    method Rotate(id: string, state: LeaseState)
      requires Valid() && id in leases && leases[id].state != Released && state != Released
      modifies this
      ensures Valid() && Evolves(old(leases), leases)
      ensures tickets == Revoked(old(tickets), id) && OnlyRevoked(old(tickets), tickets, id)
      ensures leases ==
        old(leases)[id := old(leases)[id].(state := state, generation := old(leases)[id].generation + 1)]
    {
      UpdateKeeps(leases, tickets, id, leases[id].(state := state, generation := leases[id].generation + 1));
      tickets := Revoked(tickets, id);
      leases := leases[id := leases[id].(state := state, generation := leases[id].generation + 1)];
    }

    method CompleteReconnect(id: string, sandbox: string) returns (ok: bool)
      requires Valid()
      modifies this
      ensures Valid() && Evolves(old(leases), leases)
      ensures ok <==> id in old(leases) && old(leases)[id].sandbox == sandbox
                      && (old(leases)[id].state == Active || old(leases)[id].state == Paused)
      ensures ok ==> tickets == Revoked(old(tickets), id) && leases == old(leases)[id := leases[id]]
      ensures ok ==> OnlyRevoked(old(tickets), tickets, id)
      ensures ok ==> leases[id] == old(leases)[id].(state := Active, generation := old(leases)[id].generation + 1)
      ensures !ok ==> leases == old(leases) && tickets == old(tickets)
    {
      if id !in leases || leases[id].sandbox != sandbox
         || (leases[id].state != Active && leases[id].state != Paused) { return false; }
      Rotate(id, Active);
      ok := true;
    }

    /** A replayed reconnect gives the lease a new generation too. */
    method ReplayReconnect(id: string, sandbox: string) returns (ok: bool)
      requires Valid()
      modifies this
      ensures Valid() && Evolves(old(leases), leases)
      ensures ok <==> id in old(leases) && old(leases)[id].sandbox == sandbox && old(leases)[id].state == Active
      ensures ok ==> tickets == Revoked(old(tickets), id) && leases == old(leases)[id := leases[id]]
      ensures ok ==> OnlyRevoked(old(tickets), tickets, id)
      ensures ok ==> leases[id] == old(leases)[id].(generation := old(leases)[id].generation + 1)
      ensures !ok ==> leases == old(leases) && tickets == old(tickets)
    {
      if id !in leases || leases[id].sandbox != sandbox || leases[id].state != Active { return false; }
      Rotate(id, Active);
      ok := true;
    }

    method MarkLost(id: string, sandbox: string) returns (ok: bool)
      requires Valid()
      modifies this
      ensures Valid() && Evolves(old(leases), leases)
      ensures ok <==> id in old(leases) && old(leases)[id].sandbox == sandbox
                      && (old(leases)[id].state == Active || old(leases)[id].state == Paused
                          || old(leases)[id].state == Lost)
      ensures ok ==> tickets == Revoked(old(tickets), id) && leases == old(leases)[id := leases[id]]
      ensures ok ==> OnlyRevoked(old(tickets), tickets, id)
      ensures ok && old(leases)[id].state == Lost ==> leases[id] == old(leases)[id]
      ensures ok && old(leases)[id].state != Lost ==>
        leases[id] == old(leases)[id].(state := Lost, generation := old(leases)[id].generation + 1)
      ensures !ok ==> leases == old(leases) && tickets == old(tickets)
    {
      if id !in leases || leases[id].sandbox != sandbox
         || (leases[id].state != Active && leases[id].state != Paused && leases[id].state != Lost) { return false; }
      if leases[id].state == Lost {
        UpdateKeeps(leases, tickets, id, leases[id]);
        assert leases[id := leases[id]] == leases;
        tickets := Revoked(tickets, id);
      } else {
        Rotate(id, Lost);
      }
      ok := true;
    }

    method IssueTicket(id: string, hash: string, expected: Option<nat>) returns (ok: bool)
      requires Valid()
      modifies this
      ensures Valid() && leases == old(leases)
      ensures ok <==> hash !in old(tickets) && id in leases && leases[id].state == Active
                      && (expected.Some? ==> leases[id].generation == expected.value)
      ensures tickets == if ok then Revoked(old(tickets), id)[hash := Ticket(id, leases[id].generation, false, false)]
                         else old(tickets)
      ensures ok ==> OnlyRevoked(old(tickets), tickets - {hash}, id) && tickets[hash].lease == id
    {
      if id !in leases || leases[id].state != Active { return false; }
      if expected.Some? && leases[id].generation != expected.value { return false; }
      if hash in tickets { return false; }
      tickets := Revoked(tickets, id)[hash := Ticket(id, leases[id].generation, false, false)];
      ok := true;
    }

    /** A ticket admits at most once, to the lease and generation it was issued for. */
    method ConsumeTicket(id: string, hash: string) returns (generation: Option<nat>)
      requires Valid()
      modifies this
      ensures Valid() && leases == old(leases)
      ensures generation.Some? <==> hash in old(tickets) && old(tickets)[hash].lease == id
                                    && !old(tickets)[hash].consumed && !old(tickets)[hash].revoked
      ensures generation.Some? ==>
        && id in leases && leases[id].state == Active && leases[id].generation == generation.value
        && tickets == old(tickets)[hash := old(tickets)[hash].(consumed := true)]
      ensures generation.None? ==> tickets == old(tickets)
    {
      if hash !in tickets || tickets[hash].lease != id || !Live(tickets[hash]) { return None; }
      if id !in leases || leases[id].state != Active || tickets[hash].generation != leases[id].generation {
        return None;
      }
      tickets := tickets[hash := tickets[hash].(consumed := true)];
      generation := Some(leases[id].generation);
    }
  }

  // ---- Restore chains ----

  /** How many restores lead to a lease. */
  ghost function Depth(leases: Leases, id: string): nat
    requires Founded(leases) && id in leases
    decreases leases[id].order
  {
    match leases[id].source
    case None => 0
    case Some(source) => Depth(leases, source) + 1
  }

  /** The lease at a depth of the chain that ends in `id`. */
  ghost function Ancestor(leases: Leases, id: string, d: nat): string
    requires Founded(leases) && id in leases && d <= Depth(leases, id)
    decreases leases[id].order
  {
    if d == Depth(leases, id) then id else Ancestor(leases, leases[id].source.value, d)
  }

  ghost function Root(leases: Leases, id: string): string
    requires Founded(leases) && id in leases
  {
    Ancestor(leases, id, 0)
  }

  lemma {:induction false} AncestorIsAt(leases: Leases, id: string, d: nat)
    requires Founded(leases) && id in leases && d <= Depth(leases, id)
    ensures var a := Ancestor(leases, id, d);
      a in leases && Depth(leases, a) == d && Root(leases, a) == Root(leases, id)
    decreases leases[id].order
  {
    if d < Depth(leases, id) {
      AncestorIsAt(leases, leases[id].source.value, d);
    }
  }

  lemma {:induction false} AncestorFollows(leases: Leases, id: string, d: nat)
    requires Founded(leases) && id in leases && d < Depth(leases, id)
    ensures var next := Ancestor(leases, id, d + 1);
      next in leases && leases[next].source == Some(Ancestor(leases, id, d))
    decreases leases[id].order
  {
    AncestorIsAt(leases, id, d + 1);
    if d + 1 < Depth(leases, id) {
      AncestorFollows(leases, leases[id].source.value, d);
    }
  }

  /** Two leases with one root are on one chain. */
  lemma {:induction false} OnOneChain(leases: Leases, a: string, b: string)
    requires Founded(leases) && OneReplacement(leases) && a in leases && b in leases
    requires Root(leases, a) == Root(leases, b) && Depth(leases, a) <= Depth(leases, b)
    ensures a == Ancestor(leases, b, Depth(leases, a))
    decreases leases[a].order
  {
    var d := Depth(leases, a);
    if d > 0 {
      var source := leases[a].source.value;
      OnOneChain(leases, source, b);
      AncestorFollows(leases, b, d - 1);
      assert SameSource(leases[a], leases[Ancestor(leases, b, d)]);
    }
  }

  /** A chain has one end, and every lease before the end is released: of the leases with
      one root at most one is not released, and at most one can be restored. */
  lemma OneUsableLease(leases: Leases, tickets: Tickets, a: string, b: string)
    requires Sound(leases, tickets) && a in leases && b in leases && Root(leases, a) == Root(leases, b)
    requires leases[a].state != Released || !Replaced(leases, a)
    requires leases[b].state != Released || !Replaced(leases, b)
    ensures a == b
  {
    if Depth(leases, a) <= Depth(leases, b) {
      EndsChain(leases, a, b);
    } else {
      EndsChain(leases, b, a);
    }
  }

  lemma EndsChain(leases: Leases, a: string, b: string)
    requires Founded(leases) && OneReplacement(leases) && ReplacedReleased(leases) && a in leases && b in leases
    requires Root(leases, a) == Root(leases, b) && Depth(leases, a) <= Depth(leases, b)
    requires leases[a].state != Released || !Replaced(leases, a)
    ensures a == b
  {
    OnOneChain(leases, a, b);
    if Depth(leases, a) < Depth(leases, b) {
      AncestorFollows(leases, b, Depth(leases, a));
    }
  }

  // ---- Whole histories ----

  datatype Moment = Moment(leases: Leases, tickets: Tickets)

  /** The store's contents over time; every method of the store makes such a step. */
  ghost predicate History(moments: seq<Moment>) {
    && (forall i :: 0 <= i < |moments| ==> Sound(moments[i].leases, moments[i].tickets))
    && (forall i :: 0 <= i < |moments| - 1 ==> Evolves(moments[i].leases, moments[i + 1].leases))
  }

  lemma {:induction false} EvolvesOver(moments: seq<Moment>, i: nat, j: nat)
    requires History(moments) && i <= j < |moments|
    ensures Evolves(moments[i].leases, moments[j].leases)
  {
    if i < j {
      EvolvesOver(moments, i, j - 1);
      assert Evolves(moments[j - 1].leases, moments[j - 1 + 1].leases);
    }
  }

  /** Once a lease has been replaced it is released forever, its replacement stays the only
      one, and it never again has a live ticket. */
  lemma ReplacedForever(moments: seq<Moment>, i: nat, j: nat, id: string, other: string)
    requires History(moments) && i <= j < |moments|
    requires id in moments[i].leases && other in moments[i].leases && moments[i].leases[other].source == Some(id)
    ensures id in moments[j].leases && moments[j].leases[id].state == Released
    ensures forall l :: l in moments[j].leases && moments[j].leases[l].source == Some(id) ==> l == other
    ensures forall h :: h in moments[j].tickets && moments[j].tickets[h].lease == id ==> !Live(moments[j].tickets[h])
  {
    EvolvesOver(moments, i, j);
    var leases := moments[j].leases;
    assert Sound(leases, moments[j].tickets);
    forall l | l in leases && leases[l].source == Some(id)
      ensures l == other
    {
      assert SameSource(leases[l], leases[other]);
    }
  }
}
