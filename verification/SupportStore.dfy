/** The in-memory support store shared by concurrent runs (src/index.ts, InMemorySupportStore) and the insert-or-read of
the durable tables behind it (src/enterprise/postgres.ts). The class performs each operation in place and lands exactly
where its function says. */
module SupportStore {
  import opened Wrappers

  /** Tenant ids hold no colon: the memory key below needs it. */
  type Tenant = s: string | ':' !in s witness "t"

  datatype Ticket = Ticket(id: Id, tenant: Tenant, store: Id, conversation: Id, summary: Id, key: string)

  datatype Handoff = Handoff(conversation: Id, reason: Id)

  function MemoryKey(tenant: string, key: string): string { tenant + ":" + key }

  /** b is a, a colon, and more. */
  predicate Continues(a: string, b: string) { a + ":" <= b }

  /** One tenant's key can be read as a longer tenant's. */
  predicate ReadAs(a: string, k: string, b: string, l: string) { Continues(a, b) && k == b[|a| + 1..] + ":" + l }

  lemma KeysAgree(a: string, k: string, b: string, l: string)
    requires |a| <= |b| && MemoryKey(a, k) == MemoryKey(b, l)
    ensures (a == b && k == l) || ReadAs(a, k, b, l)
  {
    var s := MemoryKey(a, k);
    assert s[..|a|] == a && s[..|b|] == b && s[|a|] == ':' && s[|b|] == ':';
    assert s[|a| + 1..] == k && s[|b| + 1..] == l;
    if |a| < |b| {
      assert b[..|a| + 1] == s[..|a| + 1] == a + ":";
      assert s[|a| + 1..] == b[|a| + 1..] + ":" + l;
    }
  }

  lemma ReadAsAgrees(a: string, k: string, b: string, l: string)
    requires ReadAs(a, k, b, l)
    ensures MemoryKey(a, k) == MemoryKey(b, l)
  {
    assert b == a + ":" + b[|a| + 1..];
  }

  /** Two tickets share a memory key if and only if they share tenant and idempotency key, or one tenant id continues
  the other with a colon and the keys make up for the difference. */
  lemma MemoryKeyDecides(a: string, k: string, b: string, l: string)
    ensures MemoryKey(a, k) == MemoryKey(b, l) <==> (a == b && k == l) || ReadAs(a, k, b, l) || ReadAs(b, l, a, k)
  {
    if MemoryKey(a, k) == MemoryKey(b, l) {
      if |a| <= |b| { KeysAgree(a, k, b, l); } else { KeysAgree(b, l, a, k); }
    }
    if ReadAs(a, k, b, l) { ReadAsAgrees(a, k, b, l); }
    if ReadAs(b, l, a, k) { ReadAsAgrees(b, l, a, k); }
  }

  /** Some ticket of the one tenant and some ticket of the other have one memory key. */
  ghost predicate Share(a: string, b: string) { exists k, l :: MemoryKey(a, k) == MemoryKey(b, l) }

  lemma ContinuedShares(a: string, b: string)
    requires Continues(a, b)
    ensures Share(a, b) && Share(b, a)
  {
    var k := b[|a| + 1..] + ":" + "";
    assert ReadAs(a, k, b, "");
    ReadAsAgrees(a, k, b, "");
    assert MemoryKey(b, "") == MemoryKey(a, k);
  }

  /** Two tenants can get at each other's tickets if and only if one tenant id continues the other with a colon. */
  lemma KeysCollideExactly(a: string, b: string)
    requires a != b
    ensures Share(a, b) <==> Continues(a, b) || Continues(b, a)
  {
    if Share(a, b) {
      var k, l :| MemoryKey(a, k) == MemoryKey(b, l);
      MemoryKeyDecides(a, k, b, l);
    }
    if Continues(a, b) { ContinuedShares(a, b); }
    if Continues(b, a) { ContinuedShares(b, a); }
  }

  lemma ContinuedHasColon(a: string, b: string)
    ensures Continues(a, b) ==> ':' in b
  {
    if Continues(a, b) { assert b[|a|] == (a + ":")[|a|]; }
  }

  /** Without colons in tenant ids the key tells tenant and key apart. */
  lemma MemoryKeyIsExact(a: Tenant, k: string, b: Tenant, l: string)
    ensures MemoryKey(a, k) == MemoryKey(b, l) <==> a == b && k == l
  {
    MemoryKeyDecides(a, k, b, l);
    ContinuedHasColon(a, b);
    ContinuedHasColon(b, a);
  }

  datatype Memory = Memory(
    tickets: map<string, Ticket>, reserved: set<string>, handoffs: seq<Handoff>, handoffsReserved: set<Id>,
    attempts: nat)

  predicate HasHandoff(handoffs: seq<Handoff>, conversation: Id) {
    exists i :: 0 <= i < |handoffs| && handoffs[i].conversation == conversation
  }

  function ReserveTicket(m: Memory, tenant: Tenant, key: string): (Memory, bool) {
    var k := MemoryKey(tenant, key);
    if k in m.tickets || k in m.reserved then (m, false) else (m.(reserved := m.reserved + {k}), true)
  }

  function ReleaseTicket(m: Memory, tenant: Tenant, key: string): Memory {
    m.(reserved := m.reserved - {MemoryKey(tenant, key)})
  }

  /** createTicket: the first ticket under a key stays. */
  function StoreTicket(m: Memory, t: Ticket): Memory {
    var k := MemoryKey(t.tenant, t.key);
    var m := m.(attempts := m.attempts + 1);
    if k in m.tickets then m else m.(tickets := m.tickets[k := t], reserved := m.reserved - {k})
  }

  function ReserveHandoff(m: Memory, conversation: Id): (Memory, bool) {
    if HasHandoff(m.handoffs, conversation) || conversation in m.handoffsReserved then (m, false)
    else (m.(handoffsReserved := m.handoffsReserved + {conversation}), true)
  }

  function StoreHandoff(m: Memory, conversation: Id, reason: Id): Memory {
    m.(handoffs := m.handoffs + [Handoff(conversation, reason)],
      handoffsReserved := m.handoffsReserved - {conversation})
  }

  class InMemorySupportStore {
    var tickets: map<string, Ticket>
    var ticketReservations: set<string>
    var handoffs: seq<Handoff>
    var handoffReservations: set<Id>
    var ticketCreationAttempts: nat

    ghost function State(): Memory
      reads this
    {
      Memory(tickets, ticketReservations, handoffs, handoffReservations, ticketCreationAttempts)
    }

    constructor ()
      ensures State() == Memory(map[], {}, [], {}, 0)
    {
      tickets, ticketReservations, handoffs, handoffReservations, ticketCreationAttempts := map[], {}, [], {}, 0;
    }

    method ReserveTicketKey(tenant: Tenant, idempotencyKey: string) returns (reserved: bool)
      modifies `ticketReservations
      ensures (State(), reserved) == ReserveTicket(old(State()), tenant, idempotencyKey)
      ensures var key := tenant + ":" + idempotencyKey;
              && (reserved <==> key !in tickets && key !in old(ticketReservations))
              && ticketReservations == if reserved then old(ticketReservations) + {key} else old(ticketReservations)
    {
      var key := tenant + ":" + idempotencyKey;
      if key in tickets || key in ticketReservations {
        return false;
      }
      ticketReservations := ticketReservations + {key};
      reserved := true;
    }

    method ReleaseTicketReservation(tenant: Tenant, idempotencyKey: string)
      modifies `ticketReservations
      ensures State() == ReleaseTicket(old(State()), tenant, idempotencyKey)
    {
      ticketReservations := ticketReservations - {tenant + ":" + idempotencyKey};
    }

    method CreateTicket(ticket: Ticket) returns (stored: Ticket, duplicate: bool)
      modifies this
      ensures State() == StoreTicket(old(State()), ticket)
      ensures var key := MemoryKey(ticket.tenant, ticket.key); key in tickets && stored == tickets[key]
      ensures duplicate == (MemoryKey(ticket.tenant, ticket.key) in old(tickets))
      ensures var key := ticket.tenant + ":" + ticket.key;
              && tickets == (if duplicate then old(tickets) else old(tickets)[key := ticket])
              && ticketReservations == (if duplicate then old(ticketReservations) else old(ticketReservations) - {key})
              && ticketCreationAttempts == old(ticketCreationAttempts) + 1
    {
      ticketCreationAttempts := ticketCreationAttempts + 1;
      var key := MemoryKey(ticket.tenant, ticket.key);
      if key in tickets {
        return tickets[key], true;
      }
      tickets := tickets[key := ticket];
      ticketReservations := ticketReservations - {key};
      stored, duplicate := ticket, false;
    }

    /** handoffs.find */
    method FindHandoff(conversation: Id) returns (found: Option<Handoff>)
      ensures found.Some? <==> HasHandoff(handoffs, conversation)
      ensures found.Some?
        ==> exists i :: 0 <= i < |handoffs| && handoffs[i] == found.value && found.value.conversation == conversation
                                          && forall j :: 0 <= j < i ==> handoffs[j].conversation != conversation
    {
      for i := 0 to |handoffs|
        invariant forall j :: 0 <= j < i ==> handoffs[j].conversation != conversation
      {
        if handoffs[i].conversation == conversation {
          return Some(handoffs[i]);
        }
      }
      found := None;
    }

    method ReserveHandoffFor(conversation: Id) returns (reserved: bool)
      modifies `handoffReservations
      ensures (State(), reserved) == ReserveHandoff(old(State()), conversation)
      ensures reserved <==> && conversation !in old(handoffReservations)
                            && forall i :: 0 <= i < |handoffs| ==> handoffs[i].conversation != conversation
      ensures handoffReservations == if reserved then old(handoffReservations) + {conversation}
                                     else old(handoffReservations)
    {
      var found := FindHandoff(conversation);
      if found.Some? || conversation in handoffReservations {
        return false;
      }
      handoffReservations := handoffReservations + {conversation};
      reserved := true;
    }

    method CreateHandoff(conversation: Id, reason: Id)
      modifies `handoffs, `handoffReservations
      ensures State() == StoreHandoff(old(State()), conversation, reason)
    {
      handoffs := handoffs + [Handoff(conversation, reason)];
      handoffReservations := handoffReservations - {conversation};
    }
  }

  // The durable tables

  type Tickets = map<(Tenant, string), Ticket>

  /** UNIQUE (tenant, store, conversation), with the stored reason. */
  type Handoffs = map<(Tenant, Id, Id), Id>

  /** INSERT ... ON CONFLICT (tenant_id, idempotency_key) DO NOTHING, then the row that is there. */
  function PersistTicket(rows: Tickets, t: Ticket): (Tickets, Ticket) {
    if (t.tenant, t.key) in rows then (rows, rows[(t.tenant, t.key)]) else (rows[(t.tenant, t.key) := t], t)
  }

  function PersistHandoff(rows: Handoffs, tenant: Tenant, store: Id, conversation: Id, reason: Id): (Handoffs, Id) {
    if (tenant, store, conversation) in rows then (rows, rows[(tenant, store, conversation)])
    else (rows[(tenant, store, conversation) := reason], reason)
  }
}
