/** Tickets and handoffs of concurrent agent runs as a transition system: the agent is an arbitrary stream of tool
calls, runs interleave at every await, and a tool that timed out may still continue later (src/index.ts, run,
beforeToolCall, finish, createBusinessTicket, createBusinessHandoff; src/real-policy.ts). A durable store is present. */
module SupportRuntime {
  import opened Wrappers
  import opened SupportStore

  datatype Request = Request(tenant: Tenant, store: Id, customer: Id, conversation: Id)

  datatype Safety = Supported | Escalate | Fallback

  datatype ResultType = AnswerResult | FallbackResult | EscalationResult

  datatype Decision = Auto | Workflow | Human | SafeFallback

  /** What the policy is told; needsHuman and greeting stand for the two text classifiers. */
  datatype Facts = Facts(
    failed: bool, requiresEscalation: bool, needsHuman: bool, greeting: bool, safety: Option<Safety>,
    durableTicket: bool, durableHandoff: bool, evidence: bool, result: ResultType)

  /** applyRealPolicy */
  function ApplyRealPolicy(f: Facts): (Decision, ResultType) {
    if f.failed then (SafeFallback, FallbackResult)
    else if f.safety.Some? then
      (if f.result.FallbackResult? then SafeFallback else if f.safety.value.Escalate? then Human else Auto, f.result)
    else if f.durableHandoff then (Human, EscalationResult)
    else if f.requiresEscalation || f.needsHuman then (Human, FallbackResult)
    else if f.durableTicket then (Workflow, AnswerResult)
    else if f.result.AnswerResult? && f.evidence then (Auto, f.result)
    else if f.greeting then (Auto, AnswerResult)
    else (SafeFallback, FallbackResult)
  }

  /** The request asks for a person. */
  predicate WantsHuman(f: Facts) { f.requiresEscalation || f.needsHuman }

  /** Which facts lead to which decision, and with what kind of result. A failure is never hidden; a safety response
  stands as it is; a request for a person, or a stored handoff, is never answered automatically; an automatic answer has
  evidence or is a greeting; and a ticket is reported only if it is durable. */
  predicate Decided(f: Facts, decision: Decision, result: ResultType) {
    && (decision.Human? <==>
          && !f.failed
          && if f.safety.Some? then f.safety == Some(Escalate) && !f.result.FallbackResult?
             else f.durableHandoff || WantsHuman(f))
    && (decision.Workflow? <==>
          !f.failed && f.safety.None? && !f.durableHandoff && !WantsHuman(f) && f.durableTicket)
    && (decision.Auto? <==>
          && !f.failed
          && if f.safety.Some? then f.safety != Some(Escalate) && !f.result.FallbackResult?
             else && !f.durableHandoff && !WantsHuman(f) && !f.durableTicket
                  && ((f.result.AnswerResult? && f.evidence) || f.greeting))
    && (decision.SafeFallback? <==>
          || f.failed
          || (f.safety.Some? && f.result.FallbackResult?)
          || (&& f.safety.None? && !f.durableHandoff && !WantsHuman(f) && !f.durableTicket && !f.greeting
              && !(f.result.AnswerResult? && f.evidence)))
    && (f.failed ==> result.FallbackResult?)
    && (!f.failed && f.safety.Some? ==> result == f.result)
    && (!f.failed && f.safety.None? ==>
          && (result.EscalationResult? <==> f.durableHandoff)
          && (result.AnswerResult? <==> decision.Workflow? || decision.Auto?))
  }

  lemma PolicyDecides(f: Facts)
    ensures Decided(f, ApplyRealPolicy(f).0, ApplyRealPolicy(f).1)
  {
  }

  /** keys and handoff are the reservations this run took; late and lateHandoff those it took after it was sealed. */
  datatype Turn = Turn(
    request: Request, aborted: bool, sealed: bool, keys: set<string>, handoff: bool, late: set<string>,
    lateHandoff: bool,
    facts: Option<Facts>)

  /** A continuation waiting behind an await. */
  datatype Task =
    | CheckingTicket(run: Id, key: string, summary: Id)
    | TicketReady(run: Id, key: string, summary: Id)
    | PersistingTicket(run: Id, key: string, summary: Id)
    | StoringTicket(run: Id, ticket: Ticket)
    | CheckingHandoff(run: Id, reason: Id)
    | HandoffReady(run: Id, reason: Id)
    | PersistingHandoff(run: Id, reason: Id)
    | StoringHandoff(run: Id, reason: Id)

  datatype Session = Session(tenant: Tenant, store: Id, customer: Id)

  datatype System = System(
    memory: Memory, tickets: Tickets, handoffs: Handoffs, sessions: map<Id, Session>, runs: map<Id, Turn>,
    tasks: map<Id, Task>)

  const Init := System(Memory(map[], {}, [], {}, 0), map[], map[], map[], map[], map[])

  datatype Step =
    | Start(run: Id, request: Request)
    | CallTicket(run: Id, task: Id, key: string, summary: Id)
    | CallHandoff(run: Id, task: Id, reason: Id)
    | SafetyHandoff(run: Id, task: Id, reason: Id)
    | Advance(task: Id, newTicket: Id)
    | Drop(task: Id)
    | Expire(run: Id)
    | Finish(run: Id, facts: Facts)

  function SessionOf(r: Request): Session { Session(r.tenant, r.store, r.customer) }

  /** The task is over. */
  function Ended(s: System, t: Id): System { s.(tasks := s.tasks - {t}) }

  function Goes(s: System, t: Id, next: Task): System { s.(tasks := s.tasks[t := next]) }

  function WithTurn(s: System, r: Id, turn: Turn): System { s.(runs := s.runs[r := turn]) }

  /** beforeToolCall after its lookup: the turn is not checked again before the reservation. */
  function ReserveTicketFor(s: System, t: Id, r: Id, key: string, summary: Id): System
    requires r in s.runs
  {
    var turn := s.runs[r];
    var (memory, ok) := ReserveTicket(s.memory, turn.request.tenant, key);
    if (turn.request.tenant, key) in s.tickets || !ok then Ended(s, t)
    else
      Goes(WithTurn(s.(memory := memory), r,
                    turn.(keys := turn.keys + {key}, late := if turn.sealed then turn.late + {key} else turn.late)),
           t, TicketReady(r, key, summary))
  }

  function ReserveHandoffFor(s: System, t: Id, r: Id, reason: Id): System
    requires r in s.runs
  {
    var turn := s.runs[r];
    var q := turn.request;
    var (memory, ok) := ReserveHandoff(s.memory, q.conversation);
    if (q.tenant, q.store, q.conversation) in s.handoffs || !ok then Ended(s, t)
    else
      Goes(WithTurn(s.(memory := memory), r, turn.(handoff := true, lateHandoff := turn.lateHandoff || turn.sealed)),
           t, HandoffReady(r, reason))
  }

  function AdvanceTask(s: System, t: Id, newTicket: Id): System
    requires t in s.tasks
  {
    var task := s.tasks[t];
    if task.run !in s.runs then s
    else
      var q := s.runs[task.run].request;
      match task
      case CheckingTicket(r, key, summary) => ReserveTicketFor(s, t, r, key, summary)
      case TicketReady(r, key, summary) =>
        if s.runs[r].aborted then Ended(s, t) else Goes(s, t, PersistingTicket(r, key, summary))
      case PersistingTicket(r, key, summary) =>
        var (rows, ticket) :=
          PersistTicket(s.tickets, Ticket(newTicket, q.tenant, q.store, q.conversation, summary, key));
        Goes(s.(tickets := rows), t, StoringTicket(r, ticket))
      case StoringTicket(_, ticket) => Ended(s.(memory := StoreTicket(s.memory, ticket)), t)
      case CheckingHandoff(r, reason) => ReserveHandoffFor(s, t, r, reason)
      case HandoffReady(r, reason) =>
        if s.runs[r].aborted then Ended(s, t) else Goes(s, t, PersistingHandoff(r, reason))
      case PersistingHandoff(r, reason) =>
        var (rows, stored) := PersistHandoff(s.handoffs, q.tenant, q.store, q.conversation, reason);
        Goes(s.(handoffs := rows), t, StoringHandoff(r, stored))
      case StoringHandoff(_, reason) =>
        Ended(s.(memory := if HasHandoff(s.memory.handoffs, q.conversation) then s.memory
          else StoreHandoff(s.memory, q.conversation, reason)), t)
  }

  /** A turn that was not aborted ends only after its tool calls were started. */
  predicate Waiting(task: Task, r: Id) {
    task.run == r && (task.CheckingTicket? || task.TicketReady? || task.CheckingHandoff? || task.HandoffReady?)
  }

  predicate MayFinish(s: System, r: Id)
    requires r in s.runs
  {
    s.runs[r].aborted || forall t :: t in s.tasks ==> !Waiting(s.tasks[t], r)
  }

  predicate HoldsTicket(m: Memory, turn: Turn) {
    exists key :: key in turn.keys && MemoryKey(turn.request.tenant, key) in m.tickets
  }

  function GivenBack(m: Memory, turn: Turn): set<string> {
    set key | key in turn.keys && MemoryKey(turn.request.tenant, key) !in m.tickets ::
      MemoryKey(turn.request.tenant, key)
  }

  /** finish: the reservations whose effect is not in the store are given back. */
  function Released(m: Memory, turn: Turn): Memory {
    m.(reserved := m.reserved - GivenBack(m, turn),
       handoffsReserved := if turn.handoff && !HasHandoff(m.handoffs, turn.request.conversation)
                           then m.handoffsReserved - {turn.request.conversation} else m.handoffsReserved)
  }

  /** The facts the policy is told, two of which are read from the store. */
  function Informed(m: Memory, turn: Turn, facts: Facts): Facts {
    facts.(durableTicket := HoldsTicket(m, turn),
      durableHandoff := turn.handoff && HasHandoff(m.handoffs, turn.request.conversation))
  }

  function Sealing(turn: Turn, facts: Facts): Turn { turn.(sealed := true, facts := Some(facts)) }

  function FinishTurn(s: System, r: Id, facts: Facts): System
    requires r in s.runs
  {
    var turn := s.runs[r];
    WithTurn(s.(memory := Released(s.memory, turn)), r, Sealing(turn, Informed(s.memory, turn, facts)))
  }

  /** One step; a step that is not enabled changes nothing. */
  function Apply(s: System, step: Step): System {
    match step
    case Start(r, q) =>
      if r in s.runs || (q.conversation in s.sessions && s.sessions[q.conversation] != SessionOf(q)) then s
      else s.(sessions := s.sessions[q.conversation := SessionOf(q)],
        runs := s.runs[r := Turn(q, false, false, {}, false, {}, false, None)])
    case CallTicket(r, t, key, summary) =>
      if r in s.runs && !s.runs[r].aborted && !s.runs[r].sealed && t !in s.tasks then
        Goes(s, t, CheckingTicket(r, key, summary))
      else s
    case CallHandoff(r, t, reason) =>
      if r in s.runs && !s.runs[r].aborted && !s.runs[r].sealed && t !in s.tasks then
        Goes(s, t, CheckingHandoff(r, reason))
      else s
    case SafetyHandoff(r, t, reason) =>
      if r !in s.runs || s.runs[r].aborted || s.runs[r].sealed || t in s.tasks then s
      else
        var (memory, ok) := ReserveHandoff(s.memory, s.runs[r].request.conversation);
        if ok then Goes(WithTurn(s.(memory := memory), r, s.runs[r].(handoff := true)), t, PersistingHandoff(r, reason))
        else s
    case Advance(t, newTicket) => if t in s.tasks then AdvanceTask(s, t, newTicket) else s
    case Drop(t) => Ended(s, t)
    case Expire(r) => if r in s.runs && !s.runs[r].sealed then WithTurn(s, r, s.runs[r].(aborted := true)) else s
    case Finish(r, facts) => if r in s.runs && !s.runs[r].sealed && MayFinish(s, r) then FinishTurn(s, r, facts) else s
  }

  function Run(s: System, steps: seq<Step>): System {
    if steps == [] then s else Apply(Run(s, steps[..|steps| - 1]), steps[|steps| - 1])
  }

  // Tickets: the memory agrees with the table

  ghost predicate RowsNamed(rows: Tickets) {
    forall k :: k in rows ==> (rows[k].tenant, rows[k].key) == k
  }

  predicate Durable(rows: Tickets, t: Ticket) { (t.tenant, t.key) in rows && rows[(t.tenant, t.key)] == t }

  ghost predicate TicketsOk(memory: map<string, Ticket>, rows: Tickets, tasks: map<Id, Task>) {
    && RowsNamed(rows)
    && (forall k :: k in memory ==> k == MemoryKey(memory[k].tenant, memory[k].key) && Durable(rows, memory[k]))
    && (forall t :: t in tasks && tasks[t].StoringTicket? ==> Durable(rows, tasks[t].ticket))
  }

  ghost predicate RowsGrow(before: Tickets, after: Tickets) {
    forall k :: k in before ==> k in after && after[k] == before[k]
  }

  ghost predicate TasksFrom(before: map<Id, Task>, after: map<Id, Task>, t: Id) {
    forall u :: u in after && u != t ==> u in before && after[u] == before[u]
  }

  /** The tickets of n come from those of s: no row is lost, only task t is new, and a newly stored ticket is
  durable. */
  ghost predicate TicketsMove(s: System, n: System, t: Id) {
    && RowsGrow(s.tickets, n.tickets) && RowsNamed(n.tickets)
    && TasksFrom(s.tasks, n.tasks, t)
    && (t in n.tasks && n.tasks[t].StoringTicket?
        ==> (t in s.tasks && n.tasks[t] == s.tasks[t]) || Durable(n.tickets, n.tasks[t].ticket))
    && (n.memory.tickets == s.memory.tickets || StoresDurable(s, n))
  }

  ghost predicate StoresDurable(s: System, n: System) {
    exists ticket :: Durable(s.tickets, ticket)
      && n.memory.tickets == s.memory.tickets[MemoryKey(ticket.tenant, ticket.key) := ticket]
  }

  lemma ReserveTicketMoves(s: System, t: Id, r: Id, key: string, summary: Id)
    requires r in s.runs && RowsNamed(s.tickets)
    ensures TicketsMove(s, ReserveTicketFor(s, t, r, key, summary), t)
  {
    QuietMoves(s, ReserveTicketFor(s, t, r, key, summary), t);
  }

  lemma ReserveHandoffMoves(s: System, t: Id, r: Id, reason: Id)
    requires r in s.runs && RowsNamed(s.tickets)
    ensures TicketsMove(s, ReserveHandoffFor(s, t, r, reason), t)
  {
    QuietMoves(s, ReserveHandoffFor(s, t, r, reason), t);
  }

  lemma PersistMoves(s: System, t: Id, r: Id, ticket: Ticket)
    requires RowsNamed(s.tickets)
    ensures var (rows, stored) := PersistTicket(s.tickets, ticket);
            TicketsMove(s, Goes(s.(tickets := rows), t, StoringTicket(r, stored)), t)
  {
  }

  lemma StoreMoves(s: System, t: Id, ticket: Ticket)
    requires RowsNamed(s.tickets) && Durable(s.tickets, ticket)
    ensures TicketsMove(s, Ended(s.(memory := StoreTicket(s.memory, ticket)), t), t)
  {
    var n := Ended(s.(memory := StoreTicket(s.memory, ticket)), t);
    if n.memory.tickets != s.memory.tickets {
      assert Durable(s.tickets, ticket)
        && n.memory.tickets == s.memory.tickets[MemoryKey(ticket.tenant, ticket.key) := ticket];
    }
  }

  lemma AdvanceMoves(s: System, t: Id, newTicket: Id)
    requires TicketsOk(s.memory.tickets, s.tickets, s.tasks) && t in s.tasks
    ensures TicketsMove(s, AdvanceTask(s, t, newTicket), t)
  {
    var task := s.tasks[t];
    if task.run in s.runs {
      var q := s.runs[task.run].request;
      match task
      case CheckingTicket(r, key, summary) => ReserveTicketMoves(s, t, r, key, summary);
      case PersistingTicket(r, key, summary) =>
        PersistMoves(s, t, r, Ticket(newTicket, q.tenant, q.store, q.conversation, summary, key));
      case StoringTicket(_, ticket) => StoreMoves(s, t, ticket);
      case CheckingHandoff(r, reason) => ReserveHandoffMoves(s, t, r, reason);
      case _ => assert AdvanceTask(s, t, newTicket).tickets == s.tickets;
    }
  }

  /** A step that neither persists nor stores a ticket. */
  lemma QuietMoves(s: System, n: System, t: Id)
    requires RowsNamed(s.tickets) && n.tickets == s.tickets && n.memory.tickets == s.memory.tickets
      && TasksFrom(s.tasks, n.tasks, t)
    requires t in n.tasks ==> (t in s.tasks && n.tasks[t] == s.tasks[t]) || !n.tasks[t].StoringTicket?
    ensures TicketsMove(s, n, t)
  {
  }

  lemma SafetyMoves(s: System, r: Id, t: Id, reason: Id)
    requires RowsNamed(s.tickets)
    ensures TicketsMove(s, Apply(s, SafetyHandoff(r, t, reason)), t)
  {
    QuietMoves(s, Apply(s, SafetyHandoff(r, t, reason)), t);
  }

  lemma FinishMoves(s: System, r: Id, facts: Facts)
    requires RowsNamed(s.tickets)
    ensures TicketsMove(s, Apply(s, Finish(r, facts)), 0)
  {
    QuietMoves(s, Apply(s, Finish(r, facts)), 0);
  }

  lemma StepMoves(s: System, step: Step) returns (t: Id)
    requires TicketsOk(s.memory.tickets, s.tickets, s.tasks)
    ensures TicketsMove(s, Apply(s, step), t)
  {
    match step
    case CallTicket(_, u, _, _) =>
      t := u;
      QuietMoves(s, Apply(s, step), t);
    case CallHandoff(_, u, _) =>
      t := u;
      QuietMoves(s, Apply(s, step), t);
    case SafetyHandoff(r, u, reason) =>
      t := u;
      SafetyMoves(s, r, u, reason);
    case Drop(u) =>
      t := u;
      QuietMoves(s, Apply(s, step), t);
    case Advance(u, newTicket) =>
      t := u;
      if u in s.tasks { AdvanceMoves(s, u, newTicket); }
    case Finish(r, facts) =>
      t := 0;
      FinishMoves(s, r, facts);
    case _ =>
      t := 0;
      QuietMoves(s, Apply(s, step), t);
  }

  lemma MovedTickets(s: System, n: System, t: Id)
    requires TicketsOk(s.memory.tickets, s.tickets, s.tasks) && TicketsMove(s, n, t)
    ensures TicketsOk(n.memory.tickets, n.tickets, n.tasks)
  {
    forall u | u in n.tasks && n.tasks[u].StoringTicket? ensures Durable(n.tickets, n.tasks[u].ticket) {
      if u in s.tasks && n.tasks[u] == s.tasks[u] { assert Durable(s.tickets, s.tasks[u].ticket); }
    }
    forall k | k in n.memory.tickets
      ensures k == MemoryKey(n.memory.tickets[k].tenant, n.memory.tickets[k].key)
        && Durable(n.tickets, n.memory.tickets[k])
    {
      if k in s.memory.tickets && n.memory.tickets[k] == s.memory.tickets[k] {
        assert Durable(s.tickets, s.memory.tickets[k]);
      }
    }
  }

  // Handoffs: at most one per conversation, and the memory agrees with the table

  predicate Told(sessions: map<Id, Session>, rows: Handoffs, conversation: Id, reason: Id) {
    && conversation in sessions
    && (sessions[conversation].tenant, sessions[conversation].store, conversation) in rows
    && rows[(sessions[conversation].tenant, sessions[conversation].store, conversation)] == reason
  }

  predicate TaskTold(s: System, task: Task) {
    task.StoringHandoff?
    ==> task.run in s.runs && Told(s.sessions, s.handoffs, s.runs[task.run].request.conversation, task.reason)
  }

  predicate Known(sessions: map<Id, Session>, q: Request) {
    q.conversation in sessions && sessions[q.conversation] == SessionOf(q)
  }

  ghost predicate HandoffsOk(s: System) {
    && (forall r :: r in s.runs ==> Known(s.sessions, s.runs[r].request))
    && (forall t :: t in s.tasks ==> TaskTold(s, s.tasks[t]))
    && (forall i :: 0 <= i < |s.memory.handoffs|
         ==> Told(s.sessions, s.handoffs, s.memory.handoffs[i].conversation, s.memory.handoffs[i].reason))
    && (forall i, j :: 0 <= i < j < |s.memory.handoffs|
         ==> s.memory.handoffs[i].conversation != s.memory.handoffs[j].conversation)
  }

  /** Sessions and rows only grow, and a run keeps its request. */
  ghost predicate HandoffsGrow(s: System, n: System) {
    && (forall v :: v in s.sessions ==> v in n.sessions && n.sessions[v] == s.sessions[v])
    && (forall k :: k in s.handoffs ==> k in n.handoffs && n.handoffs[k] == s.handoffs[k])
    && (forall r :: r in s.runs ==> r in n.runs && n.runs[r].request == s.runs[r].request)
    && (forall r :: r in n.runs ==> r in s.runs || Known(n.sessions, n.runs[r].request))
  }

  /** A stored handoff is one more, of a conversation that had none, and durable. */
  ghost predicate HandoffStored(s: System, n: System) {
    n.memory.handoffs == s.memory.handoffs
    || exists h: Handoff :: !HasHandoff(s.memory.handoffs, h.conversation)
         && Told(s.sessions, s.handoffs, h.conversation, h.reason)
         && n.memory.handoffs == s.memory.handoffs + [h]
  }

  ghost predicate HandoffsMove(s: System, n: System, t: Id) {
    && HandoffsGrow(s, n) && TasksFrom(s.tasks, n.tasks, t)
    && (t in n.tasks ==> (t in s.tasks && n.tasks[t] == s.tasks[t]) || TaskTold(n, n.tasks[t]))
    && HandoffStored(s, n)
  }

  lemma StillTold(s: System, n: System, task: Task)
    requires HandoffsGrow(s, n) && TaskTold(s, task)
    ensures TaskTold(n, task)
  {
  }

  lemma MovedHandoffs(s: System, n: System, t: Id)
    requires HandoffsOk(s) && HandoffsMove(s, n, t)
    ensures HandoffsOk(n)
  {
    forall u | u in n.tasks ensures TaskTold(n, n.tasks[u]) {
      if u in s.tasks && n.tasks[u] == s.tasks[u] { StillTold(s, n, s.tasks[u]); }
    }
    forall r | r in n.runs ensures Known(n.sessions, n.runs[r].request) {
      if r in s.runs { assert Known(s.sessions, s.runs[r].request); }
    }
    MovedStore(s, n);
  }

  lemma MovedStore(s: System, n: System)
    requires HandoffsOk(s) && HandoffsGrow(s, n) && HandoffStored(s, n)
    ensures forall i :: 0 <= i < |n.memory.handoffs|
              ==> Told(n.sessions, n.handoffs, n.memory.handoffs[i].conversation, n.memory.handoffs[i].reason)
    ensures forall i, j :: 0 <= i < j < |n.memory.handoffs|
              ==> n.memory.handoffs[i].conversation != n.memory.handoffs[j].conversation
  {
    forall i | 0 <= i < |n.memory.handoffs|
      ensures Told(n.sessions, n.handoffs, n.memory.handoffs[i].conversation, n.memory.handoffs[i].reason) {
      if i < |s.memory.handoffs| {
        assert n.memory.handoffs[i] == s.memory.handoffs[i];
        assert Told(s.sessions, s.handoffs, s.memory.handoffs[i].conversation, s.memory.handoffs[i].reason);
      }
    }
    forall i, j | 0 <= i < j < |n.memory.handoffs|
      ensures n.memory.handoffs[i].conversation != n.memory.handoffs[j].conversation {
      assert n.memory.handoffs[i] == s.memory.handoffs[i];
      if j < |s.memory.handoffs| { assert n.memory.handoffs[j] == s.memory.handoffs[j]; }
    }
  }

  /** The run keeps its request; nothing else that handoffs depend on changes. */
  lemma RunTurns(s: System, n: System, r: Id, t: Id)
    requires r in s.runs && r in n.runs && n.runs == s.runs[r := n.runs[r]] && n.runs[r].request == s.runs[r].request
    requires n.sessions == s.sessions && n.handoffs == s.handoffs && n.memory.handoffs == s.memory.handoffs
    requires TasksFrom(s.tasks, n.tasks, t)
      && (t in n.tasks ==> (t in s.tasks && n.tasks[t] == s.tasks[t]) || !n.tasks[t].StoringHandoff?)
    ensures HandoffsMove(s, n, t)
  {
  }

  lemma ReserveTicketKeeps(s: System, t: Id, r: Id, key: string, summary: Id)
    requires r in s.runs
    ensures HandoffsMove(s, ReserveTicketFor(s, t, r, key, summary), t)
  {
    RunTurns(s, ReserveTicketFor(s, t, r, key, summary), r, t);
  }

  lemma ReserveHandoffKeeps(s: System, t: Id, r: Id, reason: Id)
    requires r in s.runs
    ensures HandoffsMove(s, ReserveHandoffFor(s, t, r, reason), t)
  {
    RunTurns(s, ReserveHandoffFor(s, t, r, reason), r, t);
  }

  lemma PersistHandoffMoves(s: System, t: Id, r: Id, reason: Id)
    requires r in s.runs && Known(s.sessions, s.runs[r].request)
    ensures var q := s.runs[r].request;
            var (rows, stored) := PersistHandoff(s.handoffs, q.tenant, q.store, q.conversation, reason);
            HandoffsMove(s, Goes(s.(handoffs := rows), t, StoringHandoff(r, stored)), t)
  {
  }

  lemma StoreHandoffMoves(s: System, t: Id, q: Request, reason: Id)
    requires Told(s.sessions, s.handoffs, q.conversation, reason)
    ensures HandoffsMove(s, Ended(s.(memory := if HasHandoff(s.memory.handoffs, q.conversation) then s.memory
                                               else StoreHandoff(s.memory, q.conversation, reason)), t), t)
  {
    var h := Handoff(q.conversation, reason);
    if !HasHandoff(s.memory.handoffs, q.conversation) {
      assert Told(s.sessions, s.handoffs, h.conversation, h.reason) && !HasHandoff(s.memory.handoffs, h.conversation);
    }
  }

  lemma AdvanceMovesHandoffs(s: System, t: Id, newTicket: Id)
    requires HandoffsOk(s) && t in s.tasks
    ensures HandoffsMove(s, AdvanceTask(s, t, newTicket), t)
  {
    var task := s.tasks[t];
    assert TaskTold(s, task);
    if task.run in s.runs {
      assert Known(s.sessions, s.runs[task.run].request);
      match task
      case CheckingTicket(r, key, summary) => ReserveTicketKeeps(s, t, r, key, summary);
      case CheckingHandoff(r, reason) => ReserveHandoffKeeps(s, t, r, reason);
      case PersistingHandoff(r, reason) => PersistHandoffMoves(s, t, r, reason);
      case StoringHandoff(r, reason) => StoreHandoffMoves(s, t, s.runs[r].request, reason);
      case _ => assert AdvanceTask(s, t, newTicket).handoffs == s.handoffs;
    }
  }

  lemma SafetyMovesHandoffs(s: System, r: Id, t: Id, reason: Id)
    ensures HandoffsMove(s, Apply(s, SafetyHandoff(r, t, reason)), t)
  {
    var n := Apply(s, SafetyHandoff(r, t, reason));
    if n != s { RunTurns(s, n, r, t); }
  }

  lemma FinishMovesHandoffs(s: System, r: Id, facts: Facts)
    requires r in s.runs
    ensures HandoffsMove(s, FinishTurn(s, r, facts), 0)
  {
    RunTurns(s, FinishTurn(s, r, facts), r, 0);
  }

  lemma StartMovesHandoffs(s: System, r: Id, q: Request)
    ensures HandoffsMove(s, Apply(s, Start(r, q)), 0)
  {
  }

  lemma CallMovesHandoffs(s: System, step: Step, t: Id)
    requires (step.CallTicket? && step.task == t) || (step.CallHandoff? && step.task == t) || step == Drop(t)
    ensures HandoffsMove(s, Apply(s, step), t)
  {
  }

  lemma ExpireMovesHandoffs(s: System, r: Id)
    ensures HandoffsMove(s, Apply(s, Expire(r)), 0)
  {
  }

  lemma StepMovesHandoffs(s: System, step: Step) returns (t: Id)
    requires HandoffsOk(s)
    ensures HandoffsMove(s, Apply(s, step), t)
  {
    t := 0;
    if step.CallTicket? || step.CallHandoff? || step.Drop? {
      t := step.task;
      CallMovesHandoffs(s, step, t);
    } else if step.Expire? {
      ExpireMovesHandoffs(s, step.run);
    } else if step.Start? {
      StartMovesHandoffs(s, step.run, step.request);
    } else if step.SafetyHandoff? {
      t := step.task;
      SafetyMovesHandoffs(s, step.run, t, step.reason);
    } else if step.Advance? {
      t := step.task;
      AdvanceOrNot(s, t, step.newTicket);
    } else {
      FinishOrNot(s, step.run, step.facts);
    }
  }

  lemma AdvanceOrNot(s: System, t: Id, newTicket: Id)
    requires HandoffsOk(s)
    ensures HandoffsMove(s, Apply(s, Advance(t, newTicket)), t)
  {
    if t in s.tasks { AdvanceMovesHandoffs(s, t, newTicket); }
  }

  lemma FinishOrNot(s: System, r: Id, facts: Facts)
    ensures HandoffsMove(s, Apply(s, Finish(r, facts)), 0)
  {
    if r in s.runs { FinishMovesHandoffs(s, r, facts); }
  }

  // Reservations

  predicate Holds(turn: Turn, k: string) { exists key :: key in turn.keys && MemoryKey(turn.request.tenant, key) == k }

  predicate HoldsLate(turn: Turn, k: string) {
    exists key :: key in turn.late && MemoryKey(turn.request.tenant, key) == k
  }

  /** A run that is still open holds the reservation. */
  ghost predicate HeldOpen(runs: map<Id, Turn>, k: string) {
    exists r :: r in runs && !runs[r].sealed && Holds(runs[r], k)
  }

  ghost predicate TakenLate(runs: map<Id, Turn>, k: string) { exists r :: r in runs && HoldsLate(runs[r], k) }

  ghost predicate KeyOk(m: Memory, runs: map<Id, Turn>, k: string) {
    && (k in m.reserved ==> k !in m.tickets && (HeldOpen(runs, k) || TakenLate(runs, k)))
    && (HeldOpen(runs, k) ==> k in m.reserved || k in m.tickets)
    && (forall r, q :: r in runs && q in runs && !runs[r].sealed && !runs[q].sealed && Holds(runs[r], k)
         && Holds(runs[q], k)
         ==> r == q)
  }

  ghost predicate ReservationsOk(m: Memory, runs: map<Id, Turn>) { forall k :: KeyOk(m, runs, k) }

  /** The run changes in nothing that reservations depend on. */
  predicate SameHolds(a: Turn, b: Turn) {
    a.request == b.request && a.keys == b.keys && a.late == b.late && a.sealed == b.sealed
  }

  lemma SameRuns(m: Memory, runs: map<Id, Turn>, after: map<Id, Turn>)
    requires ReservationsOk(m, runs)
    requires forall r :: r in runs ==> r in after && SameHolds(runs[r], after[r])
    requires forall r :: r in after && r !in runs ==> after[r].keys == {} && after[r].late == {}
    ensures ReservationsOk(m, after)
  {
    forall k ensures KeyOk(m, after, k) {
      assert KeyOk(m, runs, k);
      SameHolders(runs, after, k);
    }
  }

  lemma SameHolders(runs: map<Id, Turn>, after: map<Id, Turn>, k: string)
    requires forall r :: r in runs ==> r in after && SameHolds(runs[r], after[r])
    requires forall r :: r in after && r !in runs ==> after[r].keys == {} && after[r].late == {}
    ensures HeldOpen(runs, k) <==> HeldOpen(after, k)
    ensures TakenLate(runs, k) <==> TakenLate(after, k)
  {
    if HeldOpen(runs, k) {
      var r :| r in runs && !runs[r].sealed && Holds(runs[r], k);
      assert Holds(after[r], k);
    }
    if HeldOpen(after, k) {
      var r :| r in after && !after[r].sealed && Holds(after[r], k);
      assert Holds(runs[r], k);
    }
    if TakenLate(runs, k) {
      var r :| r in runs && HoldsLate(runs[r], k);
      assert HoldsLate(after[r], k);
    }
    if TakenLate(after, k) {
      var r :| r in after && HoldsLate(after[r], k);
      assert HoldsLate(runs[r], k);
    }
  }

  function Reserving(turn: Turn, key: string): Turn {
    turn.(keys := turn.keys + {key}, late := if turn.sealed then turn.late + {key} else turn.late)
  }

  lemma AddedKey(turn: Turn, key: string, k: string)
    ensures Holds(Reserving(turn, key), k) <==> Holds(turn, k) || k == MemoryKey(turn.request.tenant, key)
    ensures HoldsLate(Reserving(turn, key), k)
      <==> HoldsLate(turn, k) || (turn.sealed && k == MemoryKey(turn.request.tenant, key))
  {
    var after := Reserving(turn, key);
    if Holds(turn, k) {
      var x :| x in turn.keys && MemoryKey(turn.request.tenant, x) == k;
      assert x in after.keys;
    }
    if HoldsLate(turn, k) {
      var x :| x in turn.late && MemoryKey(turn.request.tenant, x) == k;
      assert x in after.late;
    }
    assert key in after.keys;
    if turn.sealed { assert key in after.late; }
  }

  /** The other runs, and this one before, hold what they held. */
  lemma AddedHolders(runs: map<Id, Turn>, r: Id, key: string, k: string)
    requires r in runs
    ensures var after, mk := runs[r := Reserving(runs[r], key)], MemoryKey(runs[r].request.tenant, key);
            && (HeldOpen(after, k) <==> HeldOpen(runs, k) || (k == mk && !runs[r].sealed))
            && (TakenLate(after, k) <==> TakenLate(runs, k) || (k == mk && runs[r].sealed))
  {
    var after := runs[r := Reserving(runs[r], key)];
    AddedKey(runs[r], key, k);
    if HeldOpen(runs, k) {
      var q :| q in runs && !runs[q].sealed && Holds(runs[q], k);
      assert q in after && !after[q].sealed && Holds(after[q], k);
    }
    if TakenLate(runs, k) {
      var q :| q in runs && HoldsLate(runs[q], k);
      assert q in after && HoldsLate(after[q], k);
    }
    if HeldOpen(after, k) {
      var q :| q in after && !after[q].sealed && Holds(after[q], k);
      assert q == r || Holds(runs[q], k);
    }
    if TakenLate(after, k) {
      var q :| q in after && HoldsLate(after[q], k);
      assert q == r || HoldsLate(runs[q], k);
    }
    assert Holds(after[r], k) <==> Holds(runs[r], k) || k == MemoryKey(runs[r].request.tenant, key);
  }

  lemma ReservedKey(m: Memory, runs: map<Id, Turn>, r: Id, key: string, k: string)
    requires ReservationsOk(m, runs) && r in runs && ReserveTicket(m, runs[r].request.tenant, key).1
    ensures KeyOk(ReserveTicket(m, runs[r].request.tenant, key).0, runs[r := Reserving(runs[r], key)], k)
  {
    assert KeyOk(m, runs, k);
    AddedHolders(runs, r, key, k);
    AddedKey(runs[r], key, k);
  }

  lemma ReservedTicket(m: Memory, runs: map<Id, Turn>, r: Id, key: string)
    requires ReservationsOk(m, runs) && r in runs && ReserveTicket(m, runs[r].request.tenant, key).1
    ensures ReservationsOk(ReserveTicket(m, runs[r].request.tenant, key).0, runs[r := Reserving(runs[r], key)])
  {
    var n, after := ReserveTicket(m, runs[r].request.tenant, key).0, runs[r := Reserving(runs[r], key)];
    forall k ensures KeyOk(n, after, k) {
      ReservedKey(m, runs, r, key, k);
    }
  }

  lemma StoredTicket(m: Memory, runs: map<Id, Turn>, t: Ticket)
    requires ReservationsOk(m, runs)
    ensures ReservationsOk(StoreTicket(m, t), runs)
  {
    forall k ensures KeyOk(StoreTicket(m, t), runs, k) {
      assert KeyOk(m, runs, k);
    }
  }

  lemma SealedHolders(runs: map<Id, Turn>, r: Id, facts: Facts, k: string)
    requires r in runs
    ensures TakenLate(runs[r := Sealing(runs[r], facts)], k) <==> TakenLate(runs, k)
    ensures HeldOpen(runs[r := Sealing(runs[r], facts)], k) <==>
              exists q :: q in runs && q != r && !runs[q].sealed && Holds(runs[q], k)
  {
    var after := runs[r := Sealing(runs[r], facts)];
    assert HoldsLate(after[r], k) <==> HoldsLate(runs[r], k);
    if TakenLate(runs, k) {
      var q :| q in runs && HoldsLate(runs[q], k);
      assert HoldsLate(after[q], k);
    }
    if TakenLate(after, k) {
      var q :| q in after && HoldsLate(after[q], k);
      assert HoldsLate(runs[q], k);
    }
    if HeldOpen(after, k) {
      var q :| q in after && !after[q].sealed && Holds(after[q], k);
      assert q != r && Holds(runs[q], k);
    }
    if q :| q in runs && q != r && !runs[q].sealed && Holds(runs[q], k) {
      assert Holds(after[q], k);
    }
  }

  lemma FinishedKey(m: Memory, runs: map<Id, Turn>, r: Id, facts: Facts, k: string)
    requires ReservationsOk(m, runs) && r in runs && !runs[r].sealed
    ensures KeyOk(Released(m, runs[r]), runs[r := Sealing(runs[r], facts)], k)
  {
    assert KeyOk(m, runs, k);
    SealedHolders(runs, r, facts, k);
    assert k in GivenBack(m, runs[r]) <==> Holds(runs[r], k) && k !in m.tickets;
  }

  lemma FinishedTickets(m: Memory, runs: map<Id, Turn>, r: Id, facts: Facts)
    requires ReservationsOk(m, runs) && r in runs && !runs[r].sealed
    ensures ReservationsOk(Released(m, runs[r]), runs[r := Sealing(runs[r], facts)])
  {
    var n, after := Released(m, runs[r]), runs[r := Sealing(runs[r], facts)];
    forall k ensures KeyOk(n, after, k) {
      FinishedKey(m, runs, r, facts, k);
    }
  }

  // The same for handoffs

  predicate HoldsPlace(turn: Turn, v: Id) { turn.handoff && turn.request.conversation == v }

  predicate HoldsPlaceLate(turn: Turn, v: Id) { turn.lateHandoff && turn.request.conversation == v }

  ghost predicate PlaceOpen(runs: map<Id, Turn>, v: Id) {
    exists r :: r in runs && !runs[r].sealed && HoldsPlace(runs[r], v)
  }

  ghost predicate PlaceLate(runs: map<Id, Turn>, v: Id) { exists r :: r in runs && HoldsPlaceLate(runs[r], v) }

  ghost predicate PlaceOk(m: Memory, runs: map<Id, Turn>, v: Id) {
    && (v in m.handoffsReserved ==> !HasHandoff(m.handoffs, v) && (PlaceOpen(runs, v) || PlaceLate(runs, v)))
    && (PlaceOpen(runs, v) ==> v in m.handoffsReserved || HasHandoff(m.handoffs, v))
    && (forall r, q :: r in runs && q in runs && !runs[r].sealed && !runs[q].sealed && HoldsPlace(runs[r], v)
         && HoldsPlace(runs[q], v)
         ==> r == q)
  }

  ghost predicate PlacesOk(m: Memory, runs: map<Id, Turn>) { forall v :: PlaceOk(m, runs, v) }

  predicate SamePlaces(a: Turn, b: Turn) {
    a.request == b.request && a.handoff == b.handoff && a.lateHandoff == b.lateHandoff && a.sealed == b.sealed
  }

  lemma SamePlaceRuns(m: Memory, n: Memory, runs: map<Id, Turn>, after: map<Id, Turn>)
    requires PlacesOk(m, runs) && n.handoffs == m.handoffs && n.handoffsReserved == m.handoffsReserved
    requires forall r :: r in runs ==> r in after && SamePlaces(runs[r], after[r])
    requires forall r :: r in after && r !in runs ==> !after[r].handoff && !after[r].lateHandoff
    ensures PlacesOk(n, after)
  {
    forall v ensures PlaceOk(n, after, v) {
      assert PlaceOk(m, runs, v);
      if PlaceOpen(runs, v) {
        var r :| r in runs && !runs[r].sealed && HoldsPlace(runs[r], v);
        assert HoldsPlace(after[r], v);
      }
      if PlaceLate(runs, v) {
        var r :| r in runs && HoldsPlaceLate(runs[r], v);
        assert HoldsPlaceLate(after[r], v);
      }
    }
  }

  function Placing(turn: Turn): Turn { turn.(handoff := true, lateHandoff := turn.lateHandoff || turn.sealed) }

  lemma ReservedPlace(m: Memory, runs: map<Id, Turn>, r: Id, v: Id)
    requires PlacesOk(m, runs) && r in runs && ReserveHandoff(m, runs[r].request.conversation).1
    ensures PlaceOk(ReserveHandoff(m, runs[r].request.conversation).0, runs[r := Placing(runs[r])], v)
  {
    var after := runs[r := Placing(runs[r])];
    assert PlaceOk(m, runs, v);
    assert v == runs[r].request.conversation
      ==> HoldsPlace(after[r], v) && (runs[r].sealed ==> HoldsPlaceLate(after[r], v));
    if PlaceOpen(runs, v) {
      var q :| q in runs && !runs[q].sealed && HoldsPlace(runs[q], v);
      assert HoldsPlace(after[q], v);
    }
    if PlaceLate(runs, v) {
      var q :| q in runs && HoldsPlaceLate(runs[q], v);
      assert HoldsPlaceLate(after[q], v);
    }
  }

  lemma ReservedPlaces(m: Memory, runs: map<Id, Turn>, r: Id)
    requires PlacesOk(m, runs) && r in runs && ReserveHandoff(m, runs[r].request.conversation).1
    ensures PlacesOk(ReserveHandoff(m, runs[r].request.conversation).0, runs[r := Placing(runs[r])])
  {
    var n, after := ReserveHandoff(m, runs[r].request.conversation).0, runs[r := Placing(runs[r])];
    forall v ensures PlaceOk(n, after, v) {
      ReservedPlace(m, runs, r, v);
    }
  }

  lemma StoredPlace(m: Memory, runs: map<Id, Turn>, conversation: Id, reason: Id)
    requires PlacesOk(m, runs)
    ensures PlacesOk(StoreHandoff(m, conversation, reason), runs)
  {
    var n := StoreHandoff(m, conversation, reason);
    forall v ensures PlaceOk(n, runs, v) {
      assert PlaceOk(m, runs, v);
      assert n.handoffs[|m.handoffs|] == Handoff(conversation, reason);
      assert forall i :: 0 <= i < |m.handoffs| ==> n.handoffs[i] == m.handoffs[i];
      assert HasHandoff(n.handoffs, v) <==> HasHandoff(m.handoffs, v) || v == conversation;
    }
  }

  lemma FinishedPlaces(m: Memory, runs: map<Id, Turn>, r: Id, facts: Facts)
    requires PlacesOk(m, runs) && r in runs && !runs[r].sealed
    ensures PlacesOk(Released(m, runs[r]), runs[r := Sealing(runs[r], facts)])
  {
    var after := runs[r := Sealing(runs[r], facts)];
    forall v ensures PlaceOk(Released(m, runs[r]), after, v) {
      assert PlaceOk(m, runs, v);
      if PlaceOpen(runs, v) {
        var q :| q in runs && !runs[q].sealed && HoldsPlace(runs[q], v);
        assert q != r ==> HoldsPlace(after[q], v);
      }
      if PlaceLate(runs, v) {
        var q :| q in runs && HoldsPlaceLate(runs[q], v);
        assert HoldsPlaceLate(after[q], v);
      }
      if PlaceOpen(after, v) {
        var q :| q in after && !after[q].sealed && HoldsPlace(after[q], v);
        assert q != r && HoldsPlace(runs[q], v);
      }
    }
  }

  // Every run

  ghost predicate HoldingsOk(s: System) { ReservationsOk(s.memory, s.runs) && PlacesOk(s.memory, s.runs) }

  lemma ReserveTicketHolds(s: System, t: Id, r: Id, key: string, summary: Id)
    requires HoldingsOk(s) && r in s.runs
    ensures HoldingsOk(ReserveTicketFor(s, t, r, key, summary))
  {
    var n := ReserveTicketFor(s, t, r, key, summary);
    if n.memory != s.memory {
      ReservedTicket(s.memory, s.runs, r, key);
      SamePlaceRuns(s.memory, n.memory, s.runs, n.runs);
    }
  }

  lemma SameTickets(m: Memory, n: Memory, runs: map<Id, Turn>)
    requires ReservationsOk(m, runs) && n.tickets == m.tickets && n.reserved == m.reserved
    ensures ReservationsOk(n, runs)
  {
    forall k ensures KeyOk(n, runs, k) {
      assert KeyOk(m, runs, k);
    }
  }

  lemma PlaceTaken(s: System, r: Id)
    requires HoldingsOk(s) && r in s.runs && ReserveHandoff(s.memory, s.runs[r].request.conversation).1
    ensures HoldingsOk(WithTurn(s.(memory := ReserveHandoff(s.memory, s.runs[r].request.conversation).0), r,
      Placing(s.runs[r])))
  {
    var m := ReserveHandoff(s.memory, s.runs[r].request.conversation).0;
    ReservedPlaces(s.memory, s.runs, r);
    SameTickets(s.memory, m, s.runs);
    SameRuns(m, s.runs, s.runs[r := Placing(s.runs[r])]);
  }

  lemma StoreHolds(s: System, t: Id, ticket: Ticket)
    requires HoldingsOk(s)
    ensures HoldingsOk(Ended(s.(memory := StoreTicket(s.memory, ticket)), t))
  {
    StoredTicket(s.memory, s.runs, ticket);
    SamePlaceRuns(s.memory, StoreTicket(s.memory, ticket), s.runs, s.runs);
  }

  lemma StoreHandoffHolds(s: System, t: Id, conversation: Id, reason: Id)
    requires HoldingsOk(s)
    ensures HoldingsOk(Ended(s.(memory := StoreHandoff(s.memory, conversation, reason)), t))
  {
    StoredPlace(s.memory, s.runs, conversation, reason);
    SameTickets(s.memory, StoreHandoff(s.memory, conversation, reason), s.runs);
  }

  lemma AdvanceHolds(s: System, t: Id, newTicket: Id)
    requires HoldingsOk(s) && t in s.tasks
    ensures HoldingsOk(AdvanceTask(s, t, newTicket))
  {
    var task := s.tasks[t];
    if task.run in s.runs {
      match task
      case CheckingTicket(r, key, summary) => ReserveTicketHolds(s, t, r, key, summary);
      case StoringTicket(_, ticket) => StoreHolds(s, t, ticket);
      case CheckingHandoff(r, _) => if ReserveHandoff(s.memory, s.runs[r].request.conversation).1 { PlaceTaken(s, r); }
      case StoringHandoff(r, reason) => StoreHandoffHolds(s, t, s.runs[r].request.conversation, reason);
      case _ => assert AdvanceTask(s, t, newTicket).memory == s.memory && AdvanceTask(s, t, newTicket).runs == s.runs;
    }
  }

  lemma FinishHolds(s: System, r: Id, facts: Facts)
    requires HoldingsOk(s) && r in s.runs && !s.runs[r].sealed
    ensures HoldingsOk(FinishTurn(s, r, facts))
  {
    var told := Informed(s.memory, s.runs[r], facts);
    FinishedTickets(s.memory, s.runs, r, told);
    FinishedPlaces(s.memory, s.runs, r, told);
  }

  lemma SameHoldings(s: System, n: System)
    requires HoldingsOk(s) && n.memory == s.memory
    requires forall r :: r in s.runs
               ==> r in n.runs && SameHolds(s.runs[r], n.runs[r]) && SamePlaces(s.runs[r], n.runs[r])
    requires forall r :: r in n.runs && r !in s.runs ==>
               n.runs[r].keys == {} && n.runs[r].late == {} && !n.runs[r].handoff && !n.runs[r].lateHandoff
    ensures HoldingsOk(n)
  {
    SameRuns(s.memory, s.runs, n.runs);
    SamePlaceRuns(s.memory, s.memory, s.runs, n.runs);
  }

  lemma SafetyHolds(s: System, r: Id, t: Id, reason: Id)
    requires HoldingsOk(s)
    ensures HoldingsOk(Apply(s, SafetyHandoff(r, t, reason)))
  {
    if r in s.runs && !s.runs[r].sealed && ReserveHandoff(s.memory, s.runs[r].request.conversation).1 {
      PlaceTaken(s, r);
      assert Placing(s.runs[r]) == s.runs[r].(handoff := true);
    }
  }

  lemma TaskHolds(s: System, step: Step)
    requires HoldingsOk(s) && (step.CallTicket? || step.CallHandoff? || step.Drop?)
    ensures HoldingsOk(Apply(s, step))
  {
    assert Apply(s, step).runs == s.runs && Apply(s, step).memory == s.memory;
  }

  lemma StartHolds(s: System, r: Id, q: Request)
    requires HoldingsOk(s)
    ensures HoldingsOk(Apply(s, Start(r, q)))
  {
    SameHoldings(s, Apply(s, Start(r, q)));
  }

  lemma AbortedRuns(m: Memory, runs: map<Id, Turn>, r: Id)
    requires ReservationsOk(m, runs) && PlacesOk(m, runs) && r in runs
    ensures ReservationsOk(m, runs[r := runs[r].(aborted := true)]) && PlacesOk(m, runs[r := runs[r].(aborted := true)])
  {
    SameRuns(m, runs, runs[r := runs[r].(aborted := true)]);
    SamePlaceRuns(m, m, runs, runs[r := runs[r].(aborted := true)]);
  }

  lemma ExpireHolds(s: System, r: Id)
    requires HoldingsOk(s)
    ensures HoldingsOk(Apply(s, Expire(r)))
  {
    if r in s.runs { AbortedRuns(s.memory, s.runs, r); }
  }

  lemma StepHolds(s: System, step: Step)
    requires HoldingsOk(s)
    ensures HoldingsOk(Apply(s, step))
  {
    match step
    case SafetyHandoff(r, t, reason) => SafetyHolds(s, r, t, reason);
    case Advance(t, newTicket) => if t in s.tasks { AdvanceHolds(s, t, newTicket); }
    case Finish(r, facts) => if r in s.runs && !s.runs[r].sealed { FinishHolds(s, r, facts); }
    case Start(r, q) => StartHolds(s, r, q);
    case Expire(r) => ExpireHolds(s, r);
    case _ => TaskHolds(s, step);
  }

  /** What the policy was told about durable effects was true when a run finished, and stays true. */
  predicate ToldTruth(rows: Tickets, handoffs: Handoffs, turn: Turn) {
    turn.facts.Some? ==>
      && (turn.facts.value.durableTicket ==> exists key :: key in turn.keys && (turn.request.tenant, key) in rows)
      && (turn.facts.value.durableHandoff
          ==> (turn.request.tenant, turn.request.store, turn.request.conversation) in handoffs)
  }

  ghost predicate FactsOk(s: System) { forall r :: r in s.runs ==> ToldTruth(s.tickets, s.handoffs, s.runs[r]) }

  ghost predicate Invariant(s: System) {
    TicketsOk(s.memory.tickets, s.tickets, s.tasks) && HandoffsOk(s) && HoldingsOk(s) && FactsOk(s)
  }

  lemma HeldIsDurable(s: System, turn: Turn)
    requires TicketsOk(s.memory.tickets, s.tickets, s.tasks) && HoldsTicket(s.memory, turn)
    ensures exists key :: key in turn.keys && (turn.request.tenant, key) in s.tickets
  {
    var key :| key in turn.keys && MemoryKey(turn.request.tenant, key) in s.memory.tickets;
    var t := s.memory.tickets[MemoryKey(turn.request.tenant, key)];
    MemoryKeyIsExact(t.tenant, t.key, turn.request.tenant, key);
    assert Durable(s.tickets, t);
  }

  lemma HandoffIsDurable(s: System, q: Request)
    requires HandoffsOk(s) && Known(s.sessions, q) && HasHandoff(s.memory.handoffs, q.conversation)
    ensures (q.tenant, q.store, q.conversation) in s.handoffs
  {
    var i :| 0 <= i < |s.memory.handoffs| && s.memory.handoffs[i].conversation == q.conversation;
    assert Told(s.sessions, s.handoffs, s.memory.handoffs[i].conversation, s.memory.handoffs[i].reason);
  }

  lemma FinishTold(s: System, r: Id, facts: Facts)
    requires Invariant(s) && r in s.runs
    ensures ToldTruth(s.tickets, s.handoffs, Sealing(s.runs[r], Informed(s.memory, s.runs[r], facts)))
  {
    var turn := s.runs[r];
    assert Known(s.sessions, turn.request);
    InformedIsTrue(s, turn, facts);
  }

  lemma TrueFacts(rows: Tickets, handoffs: Handoffs, turn: Turn, f: Facts)
    requires f.durableTicket ==> exists key :: key in turn.keys && (turn.request.tenant, key) in rows
    requires f.durableHandoff ==> (turn.request.tenant, turn.request.store, turn.request.conversation) in handoffs
    ensures ToldTruth(rows, handoffs, Sealing(turn, f))
  {
    if f.durableTicket {
      var key :| key in turn.keys && (turn.request.tenant, key) in rows;
      assert key in Sealing(turn, f).keys;
    }
  }

  lemma InformedIsTrue(s: System, turn: Turn, facts: Facts)
    requires TicketsOk(s.memory.tickets, s.tickets, s.tasks) && HandoffsOk(s) && Known(s.sessions, turn.request)
    ensures ToldTruth(s.tickets, s.handoffs, Sealing(turn, Informed(s.memory, turn, facts)))
  {
    if HoldsTicket(s.memory, turn) { HeldIsDurable(s, turn); }
    if HasHandoff(s.memory.handoffs, turn.request.conversation) { HandoffIsDurable(s, turn.request); }
    TrueFacts(s.tickets, s.handoffs, turn, Informed(s.memory, turn, facts));
  }

  predicate TurnGrows(a: Turn, b: Turn) { b.facts == a.facts && a.keys <= b.keys && b.request == a.request }

  /** Runs keep their facts and gain keys only; new ones have no facts. */
  ghost predicate TurnsGrow(s: System, n: System) {
    && (forall r :: r in s.runs ==> r in n.runs && TurnGrows(s.runs[r], n.runs[r]))
    && (forall r :: r in n.runs && r !in s.runs ==> n.runs[r].facts.None?)
  }

  lemma AdvanceGrows(s: System, t: Id, newTicket: Id)
    requires t in s.tasks
    ensures TurnsGrow(s, AdvanceTask(s, t, newTicket))
  {
    var task := s.tasks[t];
    if task.run in s.runs {
      match task
      case CheckingTicket(r, key, summary) => assert TurnsGrow(s, ReserveTicketFor(s, t, r, key, summary));
      case CheckingHandoff(r, reason) => assert TurnsGrow(s, ReserveHandoffFor(s, t, r, reason));
      case _ => assert AdvanceTask(s, t, newTicket).runs == s.runs;
    }
  }

  lemma SafetyGrows(s: System, r: Id, t: Id, reason: Id)
    ensures TurnsGrow(s, Apply(s, SafetyHandoff(r, t, reason)))
  {
  }

  lemma StepGrows(s: System, step: Step)
    requires !step.Finish?
    ensures TurnsGrow(s, Apply(s, step))
  {
    if step.Advance? {
      if step.task in s.tasks { AdvanceGrows(s, step.task, step.newTicket); }
    } else if step.SafetyHandoff? {
      SafetyGrows(s, step.run, step.task, step.reason);
    } else if step.CallTicket? || step.CallHandoff? || step.Drop? {
      assert Apply(s, step).runs == s.runs;
    }
  }

  lemma TruthStays(s: System, n: System, a: Turn, b: Turn)
    requires ToldTruth(s.tickets, s.handoffs, a) && RowsGrow(s.tickets, n.tickets) && HandoffsGrow(s, n)
    requires b.facts == a.facts && a.keys <= b.keys && b.request == a.request
    ensures ToldTruth(n.tickets, n.handoffs, b)
  {
    if a.facts.Some? && a.facts.value.durableTicket {
      var key :| key in a.keys && (a.request.tenant, key) in s.tickets;
      assert key in b.keys && (b.request.tenant, key) in n.tickets;
    }
  }

  lemma FinishFacts(s: System, r: Id, facts: Facts)
    requires Invariant(s) && r in s.runs
    ensures FactsOk(FinishTurn(s, r, facts))
  {
    var n := FinishTurn(s, r, facts);
    FinishTold(s, r, facts);
    forall q | q in n.runs ensures ToldTruth(n.tickets, n.handoffs, n.runs[q]) {
      if q != r { assert ToldTruth(s.tickets, s.handoffs, s.runs[q]); }
    }
  }

  lemma GrownFacts(s: System, n: System)
    requires FactsOk(s) && TurnsGrow(s, n) && RowsGrow(s.tickets, n.tickets) && HandoffsGrow(s, n)
    ensures FactsOk(n)
  {
    forall r | r in n.runs ensures ToldTruth(n.tickets, n.handoffs, n.runs[r]) {
      if r in s.runs { TruthStays(s, n, s.runs[r], n.runs[r]); }
    }
  }

  lemma FactsKept(s: System, step: Step, t: Id, u: Id)
    requires Invariant(s) && TicketsMove(s, Apply(s, step), t) && HandoffsMove(s, Apply(s, step), u)
    ensures FactsOk(Apply(s, step))
  {
    if step.Finish? {
      if step.run in s.runs { FinishFacts(s, step.run, step.facts); }
    } else {
      StepGrows(s, step);
      GrownFacts(s, Apply(s, step));
    }
  }

  lemma StepKeeps(s: System, step: Step)
    requires Invariant(s)
    ensures Invariant(Apply(s, step))
  {
    var t := StepMoves(s, step);
    MovedTickets(s, Apply(s, step), t);
    var u := StepMovesHandoffs(s, step);
    MovedHandoffs(s, Apply(s, step), u);
    StepHolds(s, step);
    FactsKept(s, step, t, u);
  }

  lemma {:induction false} RunKeeps(s: System, steps: seq<Step>)
    requires Invariant(s)
    ensures Invariant(Run(s, steps))
  {
    if steps != [] {
      RunKeeps(s, steps[..|steps| - 1]);
      StepKeeps(Run(s, steps[..|steps| - 1]), steps[|steps| - 1]);
    }
  }

  lemma Reachable(steps: seq<Step>)
    ensures Invariant(Run(Init, steps))
  {
    forall k ensures KeyOk(Init.memory, Init.runs, k) {
    }
    forall v ensures PlaceOk(Init.memory, Init.runs, v) {
    }
    RunKeeps(Init, steps);
  }

  /** With concurrent runs and late continuations, a conversation never has two handoffs in memory. */
  lemma OneHandoffPerConversation(steps: seq<Step>, i: nat, j: nat)
    requires i < j < |Run(Init, steps).memory.handoffs|
    ensures Run(Init, steps).memory.handoffs[i].conversation != Run(Init, steps).memory.handoffs[j].conversation
  {
    Reachable(steps);
  }

  /** Every ticket in memory is the durable row of its tenant and key, and every handoff in memory the durable row of
  its conversation's session. */
  lemma MemoryAgreesWithTables(steps: seq<Step>)
    ensures var s := Run(Init, steps);
            && (forall k :: k in s.memory.tickets
                 ==> Durable(s.tickets, s.memory.tickets[k])
                     && k == MemoryKey(s.memory.tickets[k].tenant, s.memory.tickets[k].key))
            && (forall i :: 0 <= i < |s.memory.handoffs|
                 ==> Told(s.sessions, s.handoffs, s.memory.handoffs[i].conversation, s.memory.handoffs[i].reason))
  {
    Reachable(steps);
  }

  /** A run that reported a created ticket has a durable one, for its tenant and under a key it reserved itself. */
  lemma WorkflowMeansTicket(steps: seq<Step>, r: Id) returns (key: string)
    requires r in Run(Init, steps).runs && Run(Init, steps).runs[r].facts.Some?
    requires ApplyRealPolicy(Run(Init, steps).runs[r].facts.value).0.Workflow?
    ensures key in Run(Init, steps).runs[r].keys
      && (Run(Init, steps).runs[r].request.tenant, key) in Run(Init, steps).tickets
  {
    Reachable(steps);
    var s := Run(Init, steps);
    assert ToldTruth(s.tickets, s.handoffs, s.runs[r]);
    key :| key in s.runs[r].keys && (s.runs[r].request.tenant, key) in s.tickets;
  }

  /** A run that reported a handoff outside the safety path has a durable one for its own conversation. */
  lemma EscalationMeansHandoff(steps: seq<Step>, r: Id)
    requires r in Run(Init, steps).runs && Run(Init, steps).runs[r].facts.Some?
    requires var f := Run(Init, steps).runs[r].facts.value;
      f.safety.None? && ApplyRealPolicy(f) == (Human, EscalationResult)
    ensures var q := Run(Init, steps).runs[r].request; (q.tenant, q.store, q.conversation) in Run(Init, steps).handoffs
  {
    Reachable(steps);
    var s := Run(Init, steps);
    assert ToldTruth(s.tickets, s.handoffs, s.runs[r]);
  }

  /** Every finished run is decided as its facts say, and what they say of tickets and handoffs is true of the
  tables. */
  lemma FinishedRunsAreDecided(steps: seq<Step>, r: Id)
    requires r in Run(Init, steps).runs && Run(Init, steps).runs[r].facts.Some?
    ensures var s := Run(Init, steps);
            var turn, f := s.runs[r], s.runs[r].facts.value;
            && Decided(f, ApplyRealPolicy(f).0, ApplyRealPolicy(f).1)
            && (f.durableTicket ==> exists key :: key in turn.keys && (turn.request.tenant, key) in s.tickets)
            && (f.durableHandoff ==>
                  (turn.request.tenant, turn.request.store, turn.request.conversation) in s.handoffs)
  {
    Reachable(steps);
    var s := Run(Init, steps);
    PolicyDecides(s.runs[r].facts.value);
    assert ToldTruth(s.tickets, s.handoffs, s.runs[r]);
  }

  /** A run that finishes reads both facts off the store: a ticket under some key it reserved, and a handoff of its
  conversation that it reserved. What it leaves reserved has its effect in the store. */
  lemma FinishReadsTheStore(s: System, r: Id, facts: Facts)
    requires r in s.runs && !s.runs[r].sealed && Apply(s, Finish(r, facts)).runs[r].sealed
    ensures var n, turn := Apply(s, Finish(r, facts)), s.runs[r];
            var q, told := turn.request, n.runs[r].facts;
            && told.Some? && told.value == facts.(durableTicket := told.value.durableTicket,
                                                   durableHandoff := told.value.durableHandoff)
            && (told.value.durableTicket <==>
                  exists key :: key in turn.keys && MemoryKey(q.tenant, key) in s.memory.tickets)
            && (told.value.durableHandoff <==>
                  && turn.handoff
                  && exists i :: 0 <= i < |s.memory.handoffs| && s.memory.handoffs[i].conversation == q.conversation)
            && (forall key :: key in turn.keys && MemoryKey(q.tenant, key) in n.memory.reserved ==>
                  MemoryKey(q.tenant, key) in s.memory.tickets)
            && (forall k :: k in s.memory.reserved && k !in n.memory.reserved ==>
                  exists key :: key in turn.keys && k == MemoryKey(q.tenant, key) && k !in s.memory.tickets)
            && (forall v :: v in n.memory.handoffsReserved <==>
                  && v in s.memory.handoffsReserved
                  && !(turn.handoff && v == q.conversation && !told.value.durableHandoff))
            && n.memory.tickets == s.memory.tickets && n.memory.handoffs == s.memory.handoffs
            && n.tickets == s.tickets && n.handoffs == s.handoffs && n.tasks == s.tasks
  {
    var turn := s.runs[r];
    assert HasHandoff(s.memory.handoffs, turn.request.conversation) <==>
        exists i :: 0 <= i < |s.memory.handoffs| && s.memory.handoffs[i].conversation == turn.request.conversation;
    forall key | key in turn.keys && MemoryKey(turn.request.tenant, key) !in s.memory.tickets
      ensures MemoryKey(turn.request.tenant, key) in GivenBack(s.memory, turn)
    {
    }
  }

  /** Two open runs never hold the same key of the same tenant, nor the same conversation's handoff. */
  lemma ReservationsAreExclusive(steps: seq<Step>, r: Id, q: Id)
    requires var runs := Run(Init, steps).runs; r in runs && q in runs && r != q && !runs[r].sealed && !runs[q].sealed
    ensures var a, b := Run(Init, steps).runs[r], Run(Init, steps).runs[q];
            && (a.request.tenant == b.request.tenant ==> a.keys !! b.keys)
            && (a.request.conversation == b.request.conversation ==> !(a.handoff && b.handoff))
  {
    Reachable(steps);
    var s := Run(Init, steps);
    var a, b := s.runs[r], s.runs[q];
    assert PlaceOk(s.memory, s.runs, a.request.conversation);
    assert a.handoff && b.handoff && a.request.conversation == b.request.conversation ==>
        HoldsPlace(a, a.request.conversation) && HoldsPlace(b, a.request.conversation);
    if a.request.tenant == b.request.tenant {
      forall key | key in a.keys ensures key !in b.keys {
        var k := MemoryKey(a.request.tenant, key);
        assert KeyOk(s.memory, s.runs, k) && Holds(a, k);
        assert key in b.keys ==> Holds(b, k);
      }
    }
  }

  // Reservations that nobody gives back

  /** When every run is over, what is still reserved was taken by a run that was already over. */
  lemma OnlyLateReservationsLeak(steps: seq<Step>, k: string)
    requires var s := Run(Init, steps);
             k in s.memory.reserved && forall r :: r in s.runs ==> s.runs[r].sealed
    ensures TakenLate(Run(Init, steps).runs, k)
  {
    Reachable(steps);
    var s := Run(Init, steps);
    assert KeyOk(s.memory, s.runs, k);
  }

  /** The lookup before a reservation is an await, and the turn is not checked again after it: the reservation taken
  when the lookup answers has no open holder, who alone gives it back, if and only if the run was sealed by then. */
  lemma LateReservationLeaks(steps: seq<Step>, t: Id, r: Id, key: string, summary: Id)
    requires var s := Run(Init, steps);
             && t in s.tasks && s.tasks[t] == CheckingTicket(r, key, summary) && r in s.runs
             && (s.runs[r].request.tenant, key) !in s.tickets
             && ReserveTicket(s.memory, s.runs[r].request.tenant, key).1
    ensures var s := Run(Init, steps);
            var n, k := Apply(s, Advance(t, 0)), MemoryKey(s.runs[r].request.tenant, key);
            k in n.memory.reserved && (!HeldOpen(n.runs, k) <==> s.runs[r].sealed)
  {
    Reachable(steps);
    var s := Run(Init, steps);
    var k := MemoryKey(s.runs[r].request.tenant, key);
    assert KeyOk(s.memory, s.runs, k);
    AddedHolders(s.runs, r, key, k);
  }

  /** The task may yet create a ticket under the key; one of an aborted run that has not begun will not. */
  predicate Pursues(s: System, task: Task, tenant: Tenant, key: string) {
    match task
    case TicketReady(r, k, _) => r in s.runs && !s.runs[r].aborted && s.runs[r].request.tenant == tenant && k == key
    case PersistingTicket(r, k, _) => r in s.runs && s.runs[r].request.tenant == tenant && k == key
    case StoringTicket(_, ticket) => ticket.tenant == tenant && ticket.key == key
    case _ => false
  }

  /** The key is reserved, nobody holds it, and no tool call is creating its ticket. */
  ghost predicate Stuck(s: System, tenant: Tenant, key: string) {
    && MemoryKey(tenant, key) in s.memory.reserved && MemoryKey(tenant, key) !in s.memory.tickets
    && (tenant, key) !in s.tickets
    && (forall r :: r in s.runs && !s.runs[r].sealed && s.runs[r].request.tenant == tenant ==> key !in s.runs[r].keys)
    && (forall t :: t in s.tasks ==> s.tasks[t].run in s.runs && !Pursues(s, s.tasks[t], tenant, key))
  }

  lemma StuckMemory(s: System, m: Memory, tenant: Tenant, key: string)
    requires Stuck(s, tenant, key) && MemoryKey(tenant, key) in m.reserved && MemoryKey(tenant, key) !in m.tickets
    ensures Stuck(s.(memory := m), tenant, key)
  {
    var n := s.(memory := m);
    forall t | t in n.tasks ensures n.tasks[t].run in n.runs && !Pursues(n, n.tasks[t], tenant, key) {
      assert s.tasks[t].run in s.runs && !Pursues(s, s.tasks[t], tenant, key);
    }
  }

  lemma StuckRows(s: System, rows: Tickets, tenant: Tenant, key: string)
    requires Stuck(s, tenant, key) && (tenant, key) !in rows
    ensures Stuck(s.(tickets := rows), tenant, key)
  {
    var n := s.(tickets := rows);
    forall t | t in n.tasks ensures n.tasks[t].run in n.runs && !Pursues(n, n.tasks[t], tenant, key) {
      assert s.tasks[t].run in s.runs && !Pursues(s, s.tasks[t], tenant, key);
    }
  }

  /** A run's turn changes, but does not come to hold the key. */
  lemma StuckWithTurn(s: System, r: Id, turn: Turn, tenant: Tenant, key: string)
    requires Stuck(s, tenant, key)
    requires if r in s.runs
             then turn.request == s.runs[r].request && (s.runs[r].sealed ==> turn.sealed)
               && (s.runs[r].aborted ==> turn.aborted)
                  && (turn.request.tenant == tenant && key in turn.keys ==> key in s.runs[r].keys)
             else turn.keys == {}
    ensures Stuck(WithTurn(s, r, turn), tenant, key)
  {
    var n := WithTurn(s, r, turn);
    forall t | t in n.tasks ensures n.tasks[t].run in n.runs && !Pursues(n, n.tasks[t], tenant, key) {
      assert s.tasks[t].run in s.runs && !Pursues(s, s.tasks[t], tenant, key);
    }
  }

  lemma StuckGoes(s: System, t: Id, task: Task, tenant: Tenant, key: string)
    requires Stuck(s, tenant, key) && task.run in s.runs && !Pursues(s, task, tenant, key)
    ensures Stuck(Goes(s, t, task), tenant, key)
  {
    var n := Goes(s, t, task);
    forall u | u in n.tasks ensures n.tasks[u].run in n.runs && !Pursues(n, n.tasks[u], tenant, key) {
      if u != t { assert s.tasks[u].run in s.runs && !Pursues(s, s.tasks[u], tenant, key); }
    }
  }

  lemma StuckEnded(s: System, t: Id, tenant: Tenant, key: string)
    requires Stuck(s, tenant, key)
    ensures Stuck(Ended(s, t), tenant, key)
  {
    var n := Ended(s, t);
    forall u | u in n.tasks ensures n.tasks[u].run in n.runs && !Pursues(n, n.tasks[u], tenant, key) {
      assert s.tasks[u].run in s.runs && !Pursues(s, s.tasks[u], tenant, key);
    }
  }

  lemma StuckReserve(s: System, t: Id, r: Id, k: string, summary: Id, tenant: Tenant, key: string)
    requires Stuck(s, tenant, key) && r in s.runs
    ensures Stuck(ReserveTicketFor(s, t, r, k, summary), tenant, key)
  {
    var turn := s.runs[r];
    var (m, ok) := ReserveTicket(s.memory, turn.request.tenant, k);
    StuckEnded(s, t, tenant, key);
    if (turn.request.tenant, k) !in s.tickets && ok {
      assert (turn.request.tenant, k) != (tenant, key);
      StuckMemory(s, m, tenant, key);
      StuckWithTurn(s.(memory := m), r, Reserving(turn, k), tenant, key);
      StuckGoes(WithTurn(s.(memory := m), r, Reserving(turn, k)), t, TicketReady(r, k, summary), tenant, key);
    }
  }

  lemma StuckPlace(s: System, t: Id, r: Id, reason: Id, tenant: Tenant, key: string)
    requires Stuck(s, tenant, key) && r in s.runs
    ensures Stuck(ReserveHandoffFor(s, t, r, reason), tenant, key)
  {
    var turn := s.runs[r];
    var m := ReserveHandoff(s.memory, turn.request.conversation).0;
    StuckEnded(s, t, tenant, key);
    StuckMemory(s, m, tenant, key);
    StuckWithTurn(s.(memory := m), r, Placing(turn), tenant, key);
    StuckGoes(WithTurn(s.(memory := m), r, Placing(turn)), t, HandoffReady(r, reason), tenant, key);
  }

  lemma StuckPersist(s: System, t: Id, ticket: Ticket, tenant: Tenant, key: string)
    requires Stuck(s, tenant, key) && RowsNamed(s.tickets) && t in s.tasks
      && (ticket.tenant, ticket.key) != (tenant, key)
    ensures var (rows, stored) := PersistTicket(s.tickets, ticket);
            Stuck(Goes(s.(tickets := rows), t, StoringTicket(s.tasks[t].run, stored)), tenant, key)
  {
    var (rows, stored) := PersistTicket(s.tickets, ticket);
    StuckRows(s, rows, tenant, key);
    StuckGoes(s.(tickets := rows), t, StoringTicket(s.tasks[t].run, stored), tenant, key);
  }

  lemma StuckStore(s: System, t: Id, ticket: Ticket, tenant: Tenant, key: string)
    requires Stuck(s, tenant, key) && (ticket.tenant, ticket.key) != (tenant, key)
    ensures Stuck(Ended(s.(memory := StoreTicket(s.memory, ticket)), t), tenant, key)
  {
    MemoryKeyIsExact(ticket.tenant, ticket.key, tenant, key);
    StuckMemory(s, StoreTicket(s.memory, ticket), tenant, key);
    StuckEnded(s.(memory := StoreTicket(s.memory, ticket)), t, tenant, key);
  }

  /** The tasks of handoffs, and those that only move on. */
  lemma StuckOther(s: System, t: Id, newTicket: Id, tenant: Tenant, key: string)
    requires Stuck(s, tenant, key) && t in s.tasks
      && (s.tasks[t].TicketReady? || s.tasks[t].HandoffReady? || s.tasks[t].PersistingHandoff?)
    ensures Stuck(AdvanceTask(s, t, newTicket), tenant, key)
  {
    var task := s.tasks[t];
    assert task.run in s.runs && !Pursues(s, task, tenant, key);
    StuckEnded(s, t, tenant, key);
    match task
    case TicketReady(r, k, summary) =>
      if !s.runs[r].aborted { StuckGoes(s, t, PersistingTicket(r, k, summary), tenant, key); }
    case HandoffReady(r, reason) => StuckGoes(s, t, PersistingHandoff(r, reason), tenant, key);
    case PersistingHandoff(r, reason) =>
      var q := s.runs[r].request;
      var (rows, stored) := PersistHandoff(s.handoffs, q.tenant, q.store, q.conversation, reason);
      StuckGoes(s, t, StoringHandoff(r, stored), tenant, key);
      assert Goes(s.(handoffs := rows), t, StoringHandoff(r, stored))
        == Goes(s, t, StoringHandoff(r, stored)).(handoffs := rows);
      StuckHandoffs(Goes(s, t, StoringHandoff(r, stored)), rows, tenant, key);
  }

  lemma StuckHandoffs(s: System, rows: Handoffs, tenant: Tenant, key: string)
    requires Stuck(s, tenant, key)
    ensures Stuck(s.(handoffs := rows), tenant, key)
  {
    var n := s.(handoffs := rows);
    forall t | t in n.tasks ensures n.tasks[t].run in n.runs && !Pursues(n, n.tasks[t], tenant, key) {
      assert s.tasks[t].run in s.runs && !Pursues(s, s.tasks[t], tenant, key);
    }
  }

  lemma StuckStoreHandoff(s: System, t: Id, conversation: Id, reason: Id, tenant: Tenant, key: string)
    requires Stuck(s, tenant, key)
    ensures Stuck(Ended(s.(memory := if HasHandoff(s.memory.handoffs, conversation) then s.memory
                                     else StoreHandoff(s.memory, conversation, reason)), t), tenant, key)
  {
    StuckMemory(s, s.memory, tenant, key);
    StuckMemory(s, StoreHandoff(s.memory, conversation, reason), tenant, key);
    StuckEnded(s.(memory := s.memory), t, tenant, key);
    StuckEnded(s.(memory := StoreHandoff(s.memory, conversation, reason)), t, tenant, key);
  }

  lemma StuckAdvance(s: System, t: Id, newTicket: Id, tenant: Tenant, key: string)
    requires Stuck(s, tenant, key) && RowsNamed(s.tickets) && t in s.tasks
    ensures Stuck(AdvanceTask(s, t, newTicket), tenant, key)
  {
    var task := s.tasks[t];
    assert task.run in s.runs && !Pursues(s, task, tenant, key);
    var q := s.runs[task.run].request;
    match task
    case CheckingTicket(r, k, summary) => StuckReserve(s, t, r, k, summary, tenant, key);
    case PersistingTicket(r, k, summary) =>
      StuckPersist(s, t, Ticket(newTicket, q.tenant, q.store, q.conversation, summary, k), tenant, key);
    case StoringTicket(_, ticket) => StuckStore(s, t, ticket, tenant, key);
    case CheckingHandoff(r, reason) => StuckPlace(s, t, r, reason, tenant, key);
    case StoringHandoff(_, reason) => StuckStoreHandoff(s, t, q.conversation, reason, tenant, key);
    case _ => StuckOther(s, t, newTicket, tenant, key);
  }

  lemma StuckFinish(s: System, r: Id, facts: Facts, tenant: Tenant, key: string)
    requires Stuck(s, tenant, key) && r in s.runs && !s.runs[r].sealed
    ensures Stuck(FinishTurn(s, r, facts), tenant, key)
  {
    var turn, k := s.runs[r], MemoryKey(tenant, key);
    if k in GivenBack(s.memory, turn) {
      var x :| x in turn.keys && MemoryKey(turn.request.tenant, x) == k;
      MemoryKeyIsExact(turn.request.tenant, x, tenant, key);
    }
    var m := Released(s.memory, turn);
    assert m.reserved == s.memory.reserved - GivenBack(s.memory, turn);
    StuckMemory(s, m, tenant, key);
    StuckWithTurn(s.(memory := m), r, Sealing(turn, Informed(s.memory, turn, facts)), tenant, key);
  }

  lemma StuckSafety(s: System, r: Id, t: Id, reason: Id, tenant: Tenant, key: string)
    requires Stuck(s, tenant, key)
    ensures Stuck(Apply(s, SafetyHandoff(r, t, reason)), tenant, key)
  {
    if r in s.runs {
      var m := ReserveHandoff(s.memory, s.runs[r].request.conversation).0;
      var turn := s.runs[r].(handoff := true);
      StuckMemory(s, m, tenant, key);
      StuckWithTurn(s.(memory := m), r, turn, tenant, key);
      StuckGoes(WithTurn(s.(memory := m), r, turn), t, PersistingHandoff(r, reason), tenant, key);
    }
  }

  lemma StuckCall(s: System, step: Step, tenant: Tenant, key: string)
    requires Stuck(s, tenant, key) && (step.CallTicket? || step.CallHandoff? || step.Drop?)
    ensures Stuck(Apply(s, step), tenant, key)
  {
    StuckEnded(s, step.task, tenant, key);
    if !step.Drop? && step.run in s.runs {
      StuckGoes(s, step.task,
        if step.CallTicket? then CheckingTicket(step.run, step.key, step.summary)
        else CheckingHandoff(step.run, step.reason),
                tenant, key);
    }
  }

  lemma StuckStart(s: System, r: Id, q: Request, tenant: Tenant, key: string)
    requires Stuck(s, tenant, key)
    ensures Stuck(Apply(s, Start(r, q)), tenant, key)
  {
    if r !in s.runs {
      var turn := Turn(q, false, false, {}, false, {}, false, None);
      StuckWithTurn(s, r, turn, tenant, key);
      StuckSessions(WithTurn(s, r, turn), s.sessions[q.conversation := SessionOf(q)], tenant, key);
    }
  }

  lemma StuckSessions(s: System, sessions: map<Id, Session>, tenant: Tenant, key: string)
    requires Stuck(s, tenant, key)
    ensures Stuck(s.(sessions := sessions), tenant, key)
  {
    var n := s.(sessions := sessions);
    forall t | t in n.tasks ensures n.tasks[t].run in n.runs && !Pursues(n, n.tasks[t], tenant, key) {
      assert s.tasks[t].run in s.runs && !Pursues(s, s.tasks[t], tenant, key);
    }
  }

  lemma StuckExpire(s: System, r: Id, tenant: Tenant, key: string)
    requires Stuck(s, tenant, key)
    ensures Stuck(Apply(s, Expire(r)), tenant, key)
  {
    if r in s.runs { StuckWithTurn(s, r, s.runs[r].(aborted := true), tenant, key); }
  }

  lemma StuckStep(s: System, step: Step, tenant: Tenant, key: string)
    requires Stuck(s, tenant, key) && RowsNamed(s.tickets)
    ensures Stuck(Apply(s, step), tenant, key)
  {
    match step
    case Advance(t, newTicket) => if t in s.tasks { StuckAdvance(s, t, newTicket, tenant, key); }
    case Finish(r, facts) => if r in s.runs && !s.runs[r].sealed { StuckFinish(s, r, facts, tenant, key); }
    case SafetyHandoff(r, t, reason) => StuckSafety(s, r, t, reason, tenant, key);
    case CallTicket(_, _, _, _) => StuckCall(s, step, tenant, key);
    case CallHandoff(_, _, _) => StuckCall(s, step, tenant, key);
    case Drop(_) => StuckCall(s, step, tenant, key);
    case Start(r, q) => StuckStart(s, r, q, tenant, key);
    case Expire(r) => StuckExpire(s, r, tenant, key);
  }

  /** A stuck key stays stuck: whatever happens from there, no ticket is ever created under it. */
  lemma {:induction false} StuckForever(s: System, steps: seq<Step>, tenant: Tenant, key: string)
    requires Invariant(s) && Stuck(s, tenant, key)
    ensures Stuck(Run(s, steps), tenant, key)
  {
    if steps != [] {
      var init := steps[..|steps| - 1];
      StuckForever(s, init, tenant, key);
      RunKeeps(s, init);
      StuckStep(Run(s, init), steps[|steps| - 1], tenant, key);
    }
  }

  lemma RunStep(s: System, steps: seq<Step>, n: nat)
    requires n < |steps|
    ensures Run(s, steps[..n + 1]) == Apply(Run(s, steps[..n]), steps[n])
  {
    assert steps[..n + 1][..n] == steps[..n];
  }

  /** The turn is over, and its ticket lookup has yet to answer. */
  predicate LookupPending(s: System, q: Request, key: string) {
    && s.tasks == map[0 := CheckingTicket(0, key, 0)] && s.runs.Keys == {0} && s.runs[0].request == q
    && s.runs[0].sealed && s.runs[0].aborted
    && s.memory.reserved == {} && s.memory.tickets == map[] && s.tickets == map[]
  }

  lemma CalledFirst(q: Request, key: string)
    ensures var s := Apply(Apply(Init, Start(0, q)), CallTicket(0, 0, key, 0));
            && s.tasks == map[0 := CheckingTicket(0, key, 0)]
            && s.runs == map[0 := Turn(q, false, false, {}, false, {}, false, None)]
            && s.memory == Init.memory && s.tickets == map[]
  {
  }

  lemma ThenClosed(s: System, q: Request, facts: Facts, key: string)
    requires s.tasks == map[0 := CheckingTicket(0, key, 0)]
      && s.runs == map[0 := Turn(q, false, false, {}, false, {}, false, None)]
    requires s.memory == Init.memory && s.tickets == map[]
    ensures LookupPending(Apply(Apply(s, Expire(0)), Finish(0, facts)), q, key)
  {
    var n := Apply(s, Expire(0));
    assert n.runs[0].aborted && MayFinish(n, 0);
    assert Apply(n, Finish(0, facts)) == FinishTurn(n, 0, facts);
    assert GivenBack(n.memory, n.runs[0]) == {};
  }

  lemma ClosedFirst(q: Request, facts: Facts, key: string, steps: seq<Step>)
    requires |steps| >= 4 && steps[..4] == [Start(0, q), CallTicket(0, 0, key, 0), Expire(0), Finish(0, facts)]
    ensures LookupPending(Run(Init, steps[..4]), q, key)
  {
    var s := Apply(Apply(Init, Start(0, q)), CallTicket(0, 0, key, 0));
    assert Run(Init, steps[..4]) == Apply(Apply(s, Expire(0)), Finish(0, facts)) by {
      assert steps[..0] == [];
      assert forall i :: 0 <= i < 4 ==> steps[i] == steps[..4][i];
      RunStep(Init, steps, 0);
      RunStep(Init, steps, 1);
      RunStep(Init, steps, 2);
      RunStep(Init, steps, 3);
    }
    CalledFirst(q, key);
    ThenClosed(s, q, facts, key);
  }

  lemma ThenReserved(s: System, q: Request, key: string)
    requires LookupPending(s, q, key)
    ensures Stuck(Apply(Apply(s, Advance(0, 0)), Advance(0, 0)), q.tenant, key)
  {
    var n := Apply(s, Advance(0, 0));
    assert n.tasks == map[0 := TicketReady(0, key, 0)] && n.runs[0].aborted && n.runs[0].sealed && n.runs.Keys == {0};
    assert MemoryKey(q.tenant, key) in n.memory.reserved && n.memory.tickets == map[] && n.tickets == map[];
    assert Apply(n, Advance(0, 0)) == Ended(n, 0);
  }

  /** Such a run: the turn times out and is finished while its ticket lookup is still under way. */
  lemma ClosedDuringLookup(q: Request, facts: Facts, key: string, steps: seq<Step>)
    requires steps == [Start(0, q), CallTicket(0, 0, key, 0), Expire(0), Finish(0, facts), Advance(0, 0), Advance(0, 0)]
    ensures Stuck(Run(Init, steps), q.tenant, key)
  {
    var s := Run(Init, steps[..4]);
    assert Run(Init, steps) == Apply(Apply(s, Advance(0, 0)), Advance(0, 0)) by {
      RunStep(Init, steps, 4);
      RunStep(Init, steps, 5);
      assert steps[..6] == steps;
    }
    assert LookupPending(s, q, key) by { ClosedFirst(q, facts, key, steps); }
    ThenReserved(s, q, key);
  }
}
