/** What one tool call of a run does when no other comes in between, carried out or cut short, and when a run may end
(src/index.ts, beforeToolCall, the ticket and handoff tools, finish). */
module SupportOutcomes {
  import opened Wrappers
  import opened SupportStore
  import opened SupportRuntime

  /** Continuation t goes on n times. */
  function Advanced(s: System, t: Id, newTicket: Id, n: nat): System
    decreases n
  {
    if n == 0 then s else Advanced(Apply(s, Advance(t, newTicket)), t, newTicket, n - 1)
  }

  lemma {:induction false} Gone(s: System, t: Id, newTicket: Id, n: nat)
    requires t !in s.tasks
    ensures Advanced(s, t, newTicket, n) == s
  {
    if n > 0 { Gone(s, t, newTicket, n - 1); }
  }

  /** The run is open for tool calls, and the continuation is a new one. */
  predicate MayCall(s: System, r: Id, t: Id) {
    r in s.runs && !s.runs[r].aborted && !s.runs[r].sealed && t !in s.tasks
  }

  // Tickets

  /** Someone has or is about to have the ticket of that key. */
  predicate Taken(s: System, tenant: Tenant, key: string) {
    || (tenant, key) in s.tickets
    || MemoryKey(tenant, key) in s.memory.tickets
    || MemoryKey(tenant, key) in s.memory.reserved
  }

  function WithTask(s: System, t: Id, task: Task): System { s.(tasks := s.tasks[t := task]) }

  /** The reservation of the key is taken, and noted by its run. */
  function Reserved(s: System, r: Id, key: string): System
    requires r in s.runs
  {
    var turn := s.runs[r];
    s.(memory := s.memory.(reserved := s.memory.reserved + {MemoryKey(turn.request.tenant, key)}),
       runs := s.runs[r := turn.(keys := turn.keys + {key})])
  }

  lemma TaskTwice(tasks: map<Id, Task>, t: Id, a: Task, b: Task)
    ensures tasks[t := a][t := b] == tasks[t := b]
    ensures t !in tasks ==> tasks[t := a] - {t} == tasks
  {
  }

  lemma Reserves(s: System, r: Id, t: Id, key: string, summary: Id, newTicket: Id)
    requires MayCall(s, r, t) && !Taken(s, s.runs[r].request.tenant, key)
    ensures Apply(WithTask(s, t, CheckingTicket(r, key, summary)), Advance(t, newTicket))
         == WithTask(Reserved(s, r, key), t, TicketReady(r, key, summary))
  {
    TaskTwice(s.tasks, t, CheckingTicket(r, key, summary), TicketReady(r, key, summary));
  }

  lemma Refuses(s: System, r: Id, t: Id, key: string, summary: Id, newTicket: Id)
    requires MayCall(s, r, t) && Taken(s, s.runs[r].request.tenant, key)
    ensures Apply(WithTask(s, t, CheckingTicket(r, key, summary)), Advance(t, newTicket)) == s
  {
    TaskTwice(s.tasks, t, CheckingTicket(r, key, summary), CheckingTicket(r, key, summary));
  }

  lemma Proceeds(s: System, r: Id, t: Id, key: string, summary: Id, newTicket: Id)
    requires r in s.runs && !s.runs[r].aborted
    ensures Apply(WithTask(s, t, TicketReady(r, key, summary)), Advance(t, newTicket))
         == WithTask(s, t, PersistingTicket(r, key, summary))
  {
    TaskTwice(s.tasks, t, TicketReady(r, key, summary), PersistingTicket(r, key, summary));
  }

  lemma Persists(s: System, r: Id, t: Id, key: string, summary: Id, newTicket: Id, ticket: Ticket)
    requires r in s.runs && (s.runs[r].request.tenant, key) !in s.tickets
    requires ticket == Ticket(newTicket, s.runs[r].request.tenant, s.runs[r].request.store,
                              s.runs[r].request.conversation, summary, key)
    ensures Apply(WithTask(s, t, PersistingTicket(r, key, summary)), Advance(t, newTicket))
         == WithTask(s.(tickets := s.tickets[(ticket.tenant, key) := ticket]), t, StoringTicket(r, ticket))
  {
    TaskTwice(s.tasks, t, PersistingTicket(r, key, summary), StoringTicket(r, ticket));
  }

  lemma Stores(s: System, r: Id, t: Id, newTicket: Id, ticket: Ticket)
    requires r in s.runs && t !in s.tasks && MemoryKey(ticket.tenant, ticket.key) !in s.memory.tickets
    ensures Apply(WithTask(s, t, StoringTicket(r, ticket)), Advance(t, newTicket))
         == s.(memory := s.memory.(
                 tickets := s.memory.tickets[MemoryKey(ticket.tenant, ticket.key) := ticket],
                 reserved := s.memory.reserved - {MemoryKey(ticket.tenant, ticket.key)},
                 attempts := s.memory.attempts + 1))
  {
    TaskTwice(s.tasks, t, StoringTicket(r, ticket), StoringTicket(r, ticket));
  }

  /** From the reservation on. */
  lemma ReservedIsStored(s: System, r: Id, t: Id, key: string, summary: Id, newTicket: Id, ticket: Ticket)
    requires r in s.runs && !s.runs[r].aborted && t !in s.tasks
    requires (s.runs[r].request.tenant, key) !in s.tickets
    requires ticket == Ticket(newTicket, s.runs[r].request.tenant, s.runs[r].request.store,
                              s.runs[r].request.conversation, summary, key)
    requires MemoryKey(ticket.tenant, key) !in s.memory.tickets
    ensures Advanced(WithTask(s, t, TicketReady(r, key, summary)), t, newTicket, 3)
         == s.(tickets := s.tickets[(ticket.tenant, key) := ticket],
               memory := s.memory.(
                 tickets := s.memory.tickets[MemoryKey(ticket.tenant, key) := ticket],
                 reserved := s.memory.reserved - {MemoryKey(ticket.tenant, key)},
                 attempts := s.memory.attempts + 1))
  {
    var stored := s.(tickets := s.tickets[(ticket.tenant, key) := ticket]);
    Proceeds(s, r, t, key, summary, newTicket);
    Persists(s, r, t, key, summary, newTicket, ticket);
    Stores(stored, r, t, newTicket, ticket);
    assert Advanced(WithTask(stored, t, StoringTicket(r, ticket)), t, newTicket, 1)
        == Apply(WithTask(stored, t, StoringTicket(r, ticket)), Advance(t, newTicket));
  }

  /** A ticket call, alone: it is blocked exactly if the key is taken, and then changes nothing; otherwise the same
  ticket is in the table and in the memory, with the request's scope, its reservation is given up, and the run has
  noted the key. */
  lemma TicketAlone(s: System, r: Id, t: Id, key: string, summary: Id, newTicket: Id)
    requires MayCall(s, r, t)
    ensures var q := s.runs[r].request;
            var ticket := Ticket(newTicket, q.tenant, q.store, q.conversation, summary, key);
            var done := Advanced(Apply(s, CallTicket(r, t, key, summary)), t, newTicket, 4);
            done
            == if Taken(s, q.tenant, key) then s
            else s.(
              tickets := s.tickets[(q.tenant, key) := ticket],
              memory := s.memory.(tickets := s.memory.tickets[MemoryKey(q.tenant, key) := ticket],
                                  attempts := s.memory.attempts + 1),
              runs := s.runs[r := s.runs[r].(keys := s.runs[r].keys + {key})])
  {
    var q := s.runs[r].request;
    var called := WithTask(s, t, CheckingTicket(r, key, summary));
    assert Apply(s, CallTicket(r, t, key, summary)) == called;
    if Taken(s, q.tenant, key) {
      Refuses(s, r, t, key, summary, newTicket);
      Gone(s, t, newTicket, 3);
    } else {
      Reserves(s, r, t, key, summary, newTicket);
      var ticket := Ticket(newTicket, q.tenant, q.store, q.conversation, summary, key);
      ReservedIsStored(Reserved(s, r, key), r, t, key, summary, newTicket, ticket);
      assert s.memory.reserved + {MemoryKey(q.tenant, key)} - {MemoryKey(q.tenant, key)} == s.memory.reserved;
    }
  }

  // Handoffs

  predicate PlaceTaken(s: System, q: Request) {
    || (q.tenant, q.store, q.conversation) in s.handoffs
    || PlaceHeld(s, q.conversation)
  }

  /** The memory has the handoff, or a reservation for it. */
  predicate PlaceHeld(s: System, conversation: Id) {
    || conversation in s.memory.handoffsReserved
    || exists i :: 0 <= i < |s.memory.handoffs| && s.memory.handoffs[i].conversation == conversation
  }

  function Placed(s: System, r: Id): System
    requires r in s.runs
  {
    var turn := s.runs[r];
    s.(memory := s.memory.(handoffsReserved := s.memory.handoffsReserved + {turn.request.conversation}),
       runs := s.runs[r := turn.(handoff := true)])
  }

  lemma Places(s: System, r: Id, t: Id, reason: Id)
    requires MayCall(s, r, t) && !PlaceTaken(s, s.runs[r].request)
    ensures Apply(WithTask(s, t, CheckingHandoff(r, reason)), Advance(t, 0))
         == WithTask(Placed(s, r), t, HandoffReady(r, reason))
  {
    TaskTwice(s.tasks, t, CheckingHandoff(r, reason), HandoffReady(r, reason));
  }

  lemma RefusesPlace(s: System, r: Id, t: Id, reason: Id)
    requires MayCall(s, r, t) && PlaceTaken(s, s.runs[r].request)
    ensures Apply(WithTask(s, t, CheckingHandoff(r, reason)), Advance(t, 0)) == s
  {
    TaskTwice(s.tasks, t, CheckingHandoff(r, reason), CheckingHandoff(r, reason));
  }

  lemma ProceedsPlaced(s: System, r: Id, t: Id, reason: Id)
    requires r in s.runs && !s.runs[r].aborted
    ensures Apply(WithTask(s, t, HandoffReady(r, reason)), Advance(t, 0))
         == WithTask(s, t, PersistingHandoff(r, reason))
  {
    TaskTwice(s.tasks, t, HandoffReady(r, reason), PersistingHandoff(r, reason));
  }

  /** The reason the table has from now on. */
  function ReasonKept(s: System, q: Request, reason: Id): Id {
    if (q.tenant, q.store, q.conversation) in s.handoffs then s.handoffs[(q.tenant, q.store, q.conversation)]
    else reason
  }

  lemma PersistsPlace(s: System, r: Id, t: Id, reason: Id)
    requires r in s.runs
    ensures var q := s.runs[r].request;
            var kept := ReasonKept(s, q, reason);
            Apply(WithTask(s, t, PersistingHandoff(r, reason)), Advance(t, 0))
            == WithTask(s.(handoffs := s.handoffs[(q.tenant, q.store, q.conversation) := kept]), t,
                     StoringHandoff(r, kept))
  {
    var q := s.runs[r].request;
    var kept := ReasonKept(s, q, reason);
    TaskTwice(s.tasks, t, PersistingHandoff(r, reason), StoringHandoff(r, kept));
    assert (q.tenant, q.store, q.conversation) in s.handoffs
      ==> s.handoffs[(q.tenant, q.store, q.conversation) := kept] == s.handoffs;
  }

  lemma StoresPlace(s: System, r: Id, t: Id, reason: Id)
    requires r in s.runs && t !in s.tasks
    requires forall i :: 0 <= i < |s.memory.handoffs|
               ==> s.memory.handoffs[i].conversation != s.runs[r].request.conversation
    ensures var v := s.runs[r].request.conversation;
            Apply(WithTask(s, t, StoringHandoff(r, reason)), Advance(t, 0))
            == s.(memory := s.memory.(handoffs := s.memory.handoffs + [Handoff(v, reason)],
                                   handoffsReserved := s.memory.handoffsReserved - {v}))
  {
    TaskTwice(s.tasks, t, StoringHandoff(r, reason), StoringHandoff(r, reason));
  }

  /** A handoff that has the conversation's place and is about to be written. */
  lemma PlacedIsStored(s: System, r: Id, t: Id, reason: Id)
    requires r in s.runs && t !in s.tasks
    requires forall i :: 0 <= i < |s.memory.handoffs|
               ==> s.memory.handoffs[i].conversation != s.runs[r].request.conversation
    ensures var q := s.runs[r].request;
            var kept := ReasonKept(s, q, reason);
            Advanced(WithTask(s, t, PersistingHandoff(r, reason)), t, 0, 2)
            == s.(handoffs := s.handoffs[(q.tenant, q.store, q.conversation) := kept],
               memory := s.memory.(handoffs := s.memory.handoffs + [Handoff(q.conversation, kept)],
                                   handoffsReserved := s.memory.handoffsReserved - {q.conversation}))
  {
    var q := s.runs[r].request;
    var kept := ReasonKept(s, q, reason);
    var stored := s.(handoffs := s.handoffs[(q.tenant, q.store, q.conversation) := kept]);
    PersistsPlace(s, r, t, reason);
    StoresPlace(stored, r, t, kept);
    assert Advanced(WithTask(stored, t, StoringHandoff(r, kept)), t, 0, 1)
        == Apply(WithTask(stored, t, StoringHandoff(r, kept)), Advance(t, 0));
  }

  /** The handoff is in the table and in the memory, nothing is reserved any more, and its run has noted it. */
  function HandedOff(s: System, r: Id, reason: Id): System
    requires r in s.runs
  {
    var q := s.runs[r].request;
    s.(handoffs := s.handoffs[(q.tenant, q.store, q.conversation) := reason],
       memory := s.memory.(handoffs := s.memory.handoffs + [Handoff(q.conversation, reason)]),
       runs := s.runs[r := s.runs[r].(handoff := true)])
  }

  lemma PlacedIsHandedOff(s: System, r: Id, t: Id, reason: Id)
    requires MayCall(s, r, t) && !PlaceHeld(s, s.runs[r].request.conversation)
    ensures Advanced(WithTask(Placed(s, r), t, PersistingHandoff(r, reason)), t, 0, 2)
         == HandedOff(s, r, ReasonKept(s, s.runs[r].request, reason))
  {
    PlacedIsStored(Placed(s, r), r, t, reason);
    var v := s.runs[r].request.conversation;
    assert s.memory.handoffsReserved + {v} - {v} == s.memory.handoffsReserved;
  }

  /** A handoff call, alone: it is blocked exactly if the conversation has a handoff or a reservation for one. */
  lemma HandoffAlone(s: System, r: Id, t: Id, reason: Id)
    requires MayCall(s, r, t)
    ensures Advanced(Apply(s, CallHandoff(r, t, reason)), t, 0, 4)
         == if PlaceTaken(s, s.runs[r].request) then s else HandedOff(s, r, reason)
  {
    var called := WithTask(s, t, CheckingHandoff(r, reason));
    assert Apply(s, CallHandoff(r, t, reason)) == called;
    if PlaceTaken(s, s.runs[r].request) {
      RefusesPlace(s, r, t, reason);
      Gone(s, t, 0, 3);
    } else {
      Places(s, r, t, reason);
      ProceedsPlaced(Placed(s, r), r, t, reason);
      PlacedIsHandedOff(s, r, t, reason);
    }
  }

  /** The handoff of the safety path, alone: only the memory can block it, and the table keeps a reason it has. */
  lemma SafetyAlone(s: System, r: Id, t: Id, reason: Id)
    requires MayCall(s, r, t)
    ensures Advanced(Apply(s, SafetyHandoff(r, t, reason)), t, 0, 2)
         == if PlaceHeld(s, s.runs[r].request.conversation) then s
            else HandedOff(s, r, ReasonKept(s, s.runs[r].request, reason))
  {
    if PlaceHeld(s, s.runs[r].request.conversation) {
      assert Apply(s, SafetyHandoff(r, t, reason)) == s;
      Gone(s, t, 0, 2);
    } else {
      assert Apply(s, SafetyHandoff(r, t, reason)) == WithTask(Placed(s, r), t, PersistingHandoff(r, reason));
      PlacedIsHandedOff(s, r, t, reason);
    }
  }

  // Calls cut short, and the end of a run

  /** A ticket call that finds its run expired once the key is reserved: the run ends, the key is free again, and
  neither the table nor the memory has a new ticket. */
  lemma TicketCutShort(s: System, r: Id, t: Id, key: string, summary: Id, newTicket: Id, facts: Facts)
    requires MayCall(s, r, t) && !Taken(s, s.runs[r].request.tenant, key)
    ensures var reserved := Advanced(Apply(s, CallTicket(r, t, key, summary)), t, newTicket, 1);
            var over := Apply(Advanced(Apply(reserved, Expire(r)), t, newTicket, 1), Finish(r, facts));
            && MemoryKey(s.runs[r].request.tenant, key) in reserved.memory.reserved
            && MemoryKey(s.runs[r].request.tenant, key) !in over.memory.reserved
            && over.memory.tickets == s.memory.tickets && over.tickets == s.tickets && over.tasks == s.tasks
            && over.runs[r].sealed
  {
    var called := WithTask(s, t, CheckingTicket(r, key, summary));
    assert Apply(s, CallTicket(r, t, key, summary)) == called;
    Reserves(s, r, t, key, summary, newTicket);
    var reserved := WithTask(Reserved(s, r, key), t, TicketReady(r, key, summary));
    assert Advanced(called, t, newTicket, 1) == Apply(called, Advance(t, newTicket));
    var expired := Apply(reserved, Expire(r));
    assert Advanced(expired, t, newTicket, 1) == Apply(expired, Advance(t, newTicket));
    TaskTwice(s.tasks, t, TicketReady(r, key, summary), TicketReady(r, key, summary));
  }

  lemma PlacedFirst(s: System, r: Id, t: Id, reason: Id)
    requires MayCall(s, r, t) && !PlaceTaken(s, s.runs[r].request)
    ensures Advanced(Apply(s, CallHandoff(r, t, reason)), t, 0, 1)
         == WithTask(Placed(s, r), t, HandoffReady(r, reason))
  {
    var called := WithTask(s, t, CheckingHandoff(r, reason));
    assert Apply(s, CallHandoff(r, t, reason)) == called;
    Places(s, r, t, reason);
    assert Advanced(called, t, 0, 1) == Apply(called, Advance(t, 0));
  }

  lemma HandoffCutShort(s: System, r: Id, t: Id, reason: Id, facts: Facts)
    requires MayCall(s, r, t) && !PlaceTaken(s, s.runs[r].request)
    ensures var reserved := Advanced(Apply(s, CallHandoff(r, t, reason)), t, 0, 1);
            var over := Apply(Advanced(Apply(reserved, Expire(r)), t, 0, 1), Finish(r, facts));
            && s.runs[r].request.conversation in reserved.memory.handoffsReserved
            && s.runs[r].request.conversation !in over.memory.handoffsReserved
            && over.memory.handoffs == s.memory.handoffs && over.handoffs == s.handoffs && over.tasks == s.tasks
            && over.runs[r].sealed
  {
    var reserved := WithTask(Placed(s, r), t, HandoffReady(r, reason));
    PlacedFirst(s, r, t, reason);
    var expired := Apply(reserved, Expire(r));
    assert Advanced(expired, t, 0, 1) == Apply(expired, Advance(t, 0));
    TaskTwice(s.tasks, t, HandoffReady(r, reason), HandoffReady(r, reason));
  }

  predicate Writing(task: Task) {
    task.PersistingTicket? || task.StoringTicket? || task.PersistingHandoff? || task.StoringHandoff?
  }

  /** A run ends once, and unless it expired only when each of its tool calls has begun to write. */
  lemma EndsExactly(s: System, r: Id, facts: Facts)
    requires r in s.runs && !s.runs[r].sealed
    ensures Apply(s, Finish(r, facts)).runs[r].sealed
       <==> s.runs[r].aborted
            || forall t :: t in s.tasks && s.tasks[t].run == r ==> Writing(s.tasks[t])
  {
  }
}
