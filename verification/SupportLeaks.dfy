/** Exactly which late reservations are lost for good (src/index.ts, beforeToolCall and finish). */
module SupportLeaks {
  import opened Wrappers
  import opened SupportStore
  import opened SupportRuntime
  import H = SupportHandoffs

  // What tasks know of their runs

  predicate BeforeStart(task: Task) {
    task.CheckingTicket? || task.TicketReady? || task.CheckingHandoff? || task.HandoffReady?
  }

  /** The task's run is there and holds what the task reserved; a run that ended normally has no call waiting to
  start. */
  predicate TaskOk(runs: map<Id, Turn>, task: Task) {
    && task.run in runs
    && (task.TicketReady? ==> task.key in runs[task.run].keys)
    && (task.HandoffReady? ==> runs[task.run].handoff)
    && (BeforeStart(task) && runs[task.run].sealed ==> runs[task.run].aborted)
  }

  predicate TasksOk(runs: map<Id, Turn>, tasks: map<Id, Task>) { forall t :: t in tasks ==> TaskOk(runs, tasks[t]) }

  /** Durable handoffs belong to the session of their conversation. */
  predicate RowsOk(sessions: map<Id, Session>, rows: Handoffs) {
    forall k :: k in rows ==> k.2 in sessions && k.0 == sessions[k.2].tenant && k.1 == sessions[k.2].store
  }

  ghost predicate Sound(s: System) { Invariant(s) && TasksOk(s.runs, s.tasks) && RowsOk(s.sessions, s.handoffs) }

  predicate TurnKeeps(a: Turn, b: Turn) {
    a.keys <= b.keys && (a.handoff ==> b.handoff) && (a.aborted ==> b.aborted) && (b.sealed ==> a.sealed || b.aborted)
  }

  /** The turn of at most one run changes, the task of at most one, and that one is right. */
  lemma TasksStay(s: System, n: System, r: Id, t: Id)
    requires TasksOk(s.runs, s.tasks) && TasksFrom(s.tasks, n.tasks, t)
    requires n.runs == s.runs
      || (r in n.runs && n.runs == s.runs[r := n.runs[r]] && (r in s.runs ==> TurnKeeps(s.runs[r], n.runs[r])))
    requires t in n.tasks ==> (t in s.tasks && n.tasks[t] == s.tasks[t]) || TaskOk(n.runs, n.tasks[t])
    ensures TasksOk(n.runs, n.tasks)
  {
    forall u | u in n.tasks ensures TaskOk(n.runs, n.tasks[u]) {
      if u in s.tasks && n.tasks[u] == s.tasks[u] { assert TaskOk(s.runs, s.tasks[u]); }
    }
  }

  lemma ReserveTasks(s: System, t: Id, r: Id, key: string, summary: Id)
    requires TasksOk(s.runs, s.tasks) && t in s.tasks && s.tasks[t] == CheckingTicket(r, key, summary)
    ensures TasksOk(ReserveTicketFor(s, t, r, key, summary).runs, ReserveTicketFor(s, t, r, key, summary).tasks)
  {
    assert TaskOk(s.runs, s.tasks[t]);
    TasksStay(s, ReserveTicketFor(s, t, r, key, summary), r, t);
  }

  lemma PlaceTasks(s: System, t: Id, r: Id, reason: Id)
    requires TasksOk(s.runs, s.tasks) && t in s.tasks && s.tasks[t] == CheckingHandoff(r, reason)
    ensures TasksOk(ReserveHandoffFor(s, t, r, reason).runs, ReserveHandoffFor(s, t, r, reason).tasks)
  {
    assert TaskOk(s.runs, s.tasks[t]);
    TasksStay(s, ReserveHandoffFor(s, t, r, reason), r, t);
  }

  lemma OtherTasks(s: System, t: Id, newTicket: Id)
    requires TasksOk(s.runs, s.tasks) && t in s.tasks && !s.tasks[t].CheckingTicket? && !s.tasks[t].CheckingHandoff?
    ensures TasksOk(AdvanceTask(s, t, newTicket).runs, AdvanceTask(s, t, newTicket).tasks)
  {
    assert TaskOk(s.runs, s.tasks[t]);
    TasksStay(s, AdvanceTask(s, t, newTicket), 0, t);
  }

  lemma AdvanceTasks(s: System, t: Id, newTicket: Id)
    requires TasksOk(s.runs, s.tasks) && t in s.tasks
    ensures TasksOk(AdvanceTask(s, t, newTicket).runs, AdvanceTask(s, t, newTicket).tasks)
  {
    assert TaskOk(s.runs, s.tasks[t]);
    match s.tasks[t]
    case CheckingTicket(r, key, summary) => ReserveTasks(s, t, r, key, summary);
    case CheckingHandoff(r, reason) => PlaceTasks(s, t, r, reason);
    case _ => OtherTasks(s, t, newTicket);
  }

  lemma FinishTasks(s: System, r: Id, facts: Facts)
    requires TasksOk(s.runs, s.tasks) && r in s.runs && MayFinish(s, r)
    ensures TasksOk(FinishTurn(s, r, facts).runs, FinishTurn(s, r, facts).tasks)
  {
    var n := FinishTurn(s, r, facts);
    forall t | t in n.tasks ensures TaskOk(n.runs, n.tasks[t]) {
      assert TaskOk(s.runs, s.tasks[t]);
      assert s.runs[r].aborted || !Waiting(s.tasks[t], r);
    }
  }

  lemma SafetyTasks(s: System, r: Id, t: Id, reason: Id)
    requires TasksOk(s.runs, s.tasks)
    ensures var n := Apply(s, SafetyHandoff(r, t, reason)); TasksOk(n.runs, n.tasks)
  {
    TasksStay(s, Apply(s, SafetyHandoff(r, t, reason)), r, t);
  }

  lemma CallTasks(s: System, step: Step)
    requires TasksOk(s.runs, s.tasks) && (step.CallTicket? || step.CallHandoff? || step.Drop?)
    ensures var n := Apply(s, step); TasksOk(n.runs, n.tasks)
  {
    TasksStay(s, Apply(s, step), 0, step.task);
  }

  lemma TurnTasks(s: System, step: Step)
    requires TasksOk(s.runs, s.tasks) && (step.Start? || step.Expire?)
    ensures var n := Apply(s, step); TasksOk(n.runs, n.tasks)
  {
    TasksStay(s, Apply(s, step), step.run, 0);
  }

  lemma StepTasks(s: System, step: Step)
    requires TasksOk(s.runs, s.tasks)
    ensures var n := Apply(s, step); TasksOk(n.runs, n.tasks)
  {
    match step
    case Advance(t, newTicket) => if t in s.tasks { AdvanceTasks(s, t, newTicket); }
    case Finish(r, facts) => if r in s.runs && !s.runs[r].sealed && MayFinish(s, r) { FinishTasks(s, r, facts); }
    case SafetyHandoff(r, t, reason) => SafetyTasks(s, r, t, reason);
    case CallTicket(_, _, _, _) => CallTasks(s, step);
    case CallHandoff(_, _, _) => CallTasks(s, step);
    case Drop(_) => CallTasks(s, step);
    case Start(_, _) => TurnTasks(s, step);
    case Expire(_) => TurnTasks(s, step);
  }

  lemma AdvanceRows(s: System, t: Id, newTicket: Id)
    requires HandoffsOk(s) && RowsOk(s.sessions, s.handoffs) && t in s.tasks
    ensures RowsOk(AdvanceTask(s, t, newTicket).sessions, AdvanceTask(s, t, newTicket).handoffs)
  {
    var task := s.tasks[t];
    if task.PersistingHandoff? && task.run in s.runs {
      assert Known(s.sessions, s.runs[task.run].request);
    } else {
      assert AdvanceTask(s, t, newTicket).handoffs == s.handoffs && AdvanceTask(s, t, newTicket).sessions == s.sessions;
    }
  }

  lemma StepRows(s: System, step: Step)
    requires HandoffsOk(s) && RowsOk(s.sessions, s.handoffs)
    ensures var n := Apply(s, step); RowsOk(n.sessions, n.handoffs)
  {
    if step.Advance? {
      if step.task in s.tasks { AdvanceRows(s, step.task, step.newTicket); }
    } else {
      assert Apply(s, step).handoffs == s.handoffs;
    }
  }

  lemma StepSound(s: System, step: Step)
    requires Sound(s)
    ensures Sound(Apply(s, step))
  {
    StepKeeps(s, step);
    StepTasks(s, step);
    StepRows(s, step);
  }

  lemma {:induction false} RunSound(steps: seq<Step>)
    ensures Sound(Run(Init, steps))
  {
    if steps == [] {
      Reachable(steps);
    } else {
      RunSound(steps[..|steps| - 1]);
      StepSound(Run(Init, steps[..|steps| - 1]), steps[|steps| - 1]);
    }
  }

  // Tickets

  /** A ticket under the key is being written, by whatever run. */
  predicate BeingWritten(s: System, tenant: Tenant, key: string) {
    exists t :: t in s.tasks && Writes(s, s.tasks[t], tenant, key)
  }

  predicate Writes(s: System, task: Task, tenant: Tenant, key: string) {
    task.PersistingTicket? && task.run in s.runs && s.runs[task.run].request.tenant == tenant && task.key == key
  }

  /** Whatever happens from here, the key is never given back. */
  ghost predicate ReservedForever(s: System, tenant: Tenant, key: string) {
    forall more :: MemoryKey(tenant, key) in Run(s, more).memory.reserved
  }

  lemma NoOtherHolder(m: Memory, runs: map<Id, Turn>, tenant: Tenant, key: string, r: Id)
    requires ReservationsOk(m, runs) && ReserveTicket(m, tenant, key).1
    requires r in runs && !runs[r].sealed && runs[r].request.tenant == tenant
    ensures key !in runs[r].keys
  {
    assert KeyOk(m, runs, MemoryKey(tenant, key));
    if key in runs[r].keys { assert Holds(runs[r], MemoryKey(tenant, key)); }
  }

  /** A lookup has answered, and the key is free. */
  predicate Reserves(s: System, t: Id, r: Id, key: string, summary: Id) {
    && t in s.tasks && s.tasks[t] == CheckingTicket(r, key, summary) && r in s.runs
    && (s.runs[r].request.tenant, key) !in s.tickets && ReserveTicket(s.memory, s.runs[r].request.tenant, key).1
  }

  /** Before the reservation no call is on its way to a ticket under the key, but for one that is being written. */
  lemma NobodyPursues(s: System, u: Id, tenant: Tenant, key: string)
    requires Sound(s) && (tenant, key) !in s.tickets && ReserveTicket(s.memory, tenant, key).1 && u in s.tasks
    requires !Writes(s, s.tasks[u], tenant, key)
    ensures !Pursues(s, s.tasks[u], tenant, key)
  {
    var task := s.tasks[u];
    assert TaskOk(s.runs, task);
    if task.TicketReady? && !s.runs[task.run].sealed && s.runs[task.run].request.tenant == tenant {
      NoOtherHolder(s.memory, s.runs, tenant, key, task.run);
    }
    if task.StoringTicket? { assert Durable(s.tickets, task.ticket); }
  }

  lemma LateIsStuck(s: System, t: Id, r: Id, key: string, summary: Id)
    requires Sound(s) && Reserves(s, t, r, key, summary) && s.runs[r].sealed
    requires var tenant := s.runs[r].request.tenant; !BeingWritten(s, tenant, key)
    ensures Stuck(Apply(s, Advance(t, 0)), s.runs[r].request.tenant, key)
  {
    var tenant, n := s.runs[r].request.tenant, Apply(s, Advance(t, 0));
    assert TaskOk(s.runs, s.tasks[t]);
    forall q | q in n.runs && !n.runs[q].sealed && n.runs[q].request.tenant == tenant ensures key !in n.runs[q].keys {
      NoOtherHolder(s.memory, s.runs, tenant, key, q);
    }
    forall u | u in n.tasks ensures n.tasks[u].run in n.runs && !Pursues(n, n.tasks[u], tenant, key) {
      if u != t {
        assert TaskOk(s.runs, s.tasks[u]);
        NobodyPursues(s, u, tenant, key);
      }
    }
  }

  lemma RunOnce(s: System, a: Step)
    ensures Run(s, [a]) == Apply(s, a)
  {
    assert [a][..0] == [];
  }

  lemma RunTwice(s: System, a: Step, b: Step)
    ensures Run(s, [a, b]) == Apply(Apply(s, a), b)
  {
    assert [a, b][..1] == [a];
    RunOnce(s, a);
  }

  lemma FinishFrees(s: System, r: Id, key: string, facts: Facts)
    requires r in s.runs && !s.runs[r].sealed && key in s.runs[r].keys
    requires MemoryKey(s.runs[r].request.tenant, key) !in s.memory.tickets
    ensures MemoryKey(s.runs[r].request.tenant, key) !in Run(s, [Expire(r), Finish(r, facts)]).memory.reserved
  {
    RunTwice(s, Expire(r), Finish(r, facts));
    var n := Apply(s, Expire(r));
    assert MayFinish(n, r) && Apply(n, Finish(r, facts)) == FinishTurn(n, r, facts);
    assert MemoryKey(n.runs[r].request.tenant, key) in GivenBack(n.memory, n.runs[r]);
  }

  lemma WriteFrees(s: System, u: Id, tenant: Tenant, key: string)
    requires u in s.tasks && Writes(s, s.tasks[u], tenant, key)
    requires (tenant, key) !in s.tickets && MemoryKey(tenant, key) !in s.memory.tickets
    ensures MemoryKey(tenant, key) !in Run(s, [Advance(u, 0), Advance(u, 0)]).memory.reserved
  {
    RunTwice(s, Advance(u, 0), Advance(u, 0));
    var q := s.runs[s.tasks[u].run].request;
    var ticket := Ticket(0, q.tenant, q.store, q.conversation, s.tasks[u].summary, key);
    var n := Apply(s, Advance(u, 0));
    assert n.tasks[u] == StoringTicket(s.tasks[u].run, ticket);
    assert Apply(n, Advance(u, 0)).memory == StoreTicket(n.memory, ticket);
  }

  const SomeFacts := Facts(false, false, false, false, None, false, false, false, FallbackResult)

  /** The reservation that a ticket call takes when its lookup answers is never given back, whatever happens, if and
  only if its run was sealed by then and no earlier call is still writing a ticket under the same key. */
  lemma LeakedForGood(steps: seq<Step>, t: Id, r: Id, key: string, summary: Id)
    requires Reserves(Run(Init, steps), t, r, key, summary)
    ensures var s := Run(Init, steps);
            var tenant := s.runs[r].request.tenant;
            ReservedForever(Apply(s, Advance(t, 0)), tenant, key) <==> s.runs[r].sealed && !BeingWritten(s, tenant, key)
  {
    RunSound(steps);
    var s := Run(Init, steps);
    var n, tenant := Apply(s, Advance(t, 0)), s.runs[r].request.tenant;
    StepSound(s, Advance(t, 0));
    if !s.runs[r].sealed {
      FinishFrees(n, r, key, SomeFacts);
    } else if BeingWritten(s, tenant, key) {
      var u :| u in s.tasks && Writes(s, s.tasks[u], tenant, key);
      WriteFrees(n, u, tenant, key);
    } else {
      LateIsStuck(s, t, r, key, summary);
      forall more ensures MemoryKey(tenant, key) in Run(n, more).memory.reserved {
        StuckForever(n, more, tenant, key);
      }
    }
  }

  // Handoffs

  /** A handoff of the conversation is being written, by whatever run. */
  predicate HandoffBeingWritten(s: System, v: Id) { exists t :: t in s.tasks && WritesHandoff(s, s.tasks[t], v) }

  predicate WritesHandoff(s: System, task: Task, v: Id) {
    task.PersistingHandoff? && task.run in s.runs && s.runs[task.run].request.conversation == v
  }

  /** Whatever happens from here, the conversation's place is never given back. */
  ghost predicate PlaceReservedForever(s: System, v: Id) { forall more :: v in Run(s, more).memory.handoffsReserved }

  predicate ReservesPlace(s: System, t: Id, r: Id, reason: Id) {
    && t in s.tasks && s.tasks[t] == CheckingHandoff(r, reason) && r in s.runs
    && var q := s.runs[r].request;
       (q.tenant, q.store, q.conversation) !in s.handoffs && ReserveHandoff(s.memory, q.conversation).1
  }

  lemma NoRow(s: System, q: Request, k: (Tenant, Id, Id))
    requires RowsOk(s.sessions, s.handoffs) && Known(s.sessions, q)
      && (q.tenant, q.store, q.conversation) !in s.handoffs && k in s.handoffs
    ensures k.2 != q.conversation
  {
    assert k == (k.0, k.1, k.2);
  }

  lemma NoOtherPlace(m: Memory, runs: map<Id, Turn>, v: Id, r: Id)
    requires PlacesOk(m, runs) && ReserveHandoff(m, v).1 && r in runs && !runs[r].sealed
    ensures !HoldsPlace(runs[r], v)
  {
    assert PlaceOk(m, runs, v);
  }

  lemma NobodyPursuesPlace(s: System, u: Id, q: Request)
    requires Sound(s) && Known(s.sessions, q) && (q.tenant, q.store, q.conversation) !in s.handoffs
    requires ReserveHandoff(s.memory, q.conversation).1 && u in s.tasks && !WritesHandoff(s, s.tasks[u], q.conversation)
    ensures H.TaskElsewhere(s.runs, s.tasks[u], q.conversation)
  {
    var task := s.tasks[u];
    assert TaskOk(s.runs, task) && TaskTold(s, task);
    if task.HandoffReady? && !s.runs[task.run].sealed { NoOtherPlace(s.memory, s.runs, q.conversation, task.run); }
  }

  lemma LatePlaceIsStuck(s: System, t: Id, r: Id, reason: Id)
    requires Sound(s) && ReservesPlace(s, t, r, reason) && s.runs[r].sealed
      && !HandoffBeingWritten(s, s.runs[r].request.conversation)
    ensures H.StuckAt(Apply(s, Advance(t, 0)), s.runs[r].request.conversation)
  {
    var q, n := s.runs[r].request, Apply(s, Advance(t, 0));
    assert Known(s.sessions, q) && TaskOk(s.runs, s.tasks[t]);
    forall k | k in n.handoffs ensures k.2 != q.conversation {
      NoRow(s, q, k);
    }
    forall x | x in n.runs && !n.runs[x].sealed ensures !HoldsPlace(n.runs[x], q.conversation) {
      NoOtherPlace(s.memory, s.runs, q.conversation, x);
    }
    forall u | u in n.tasks ensures H.TaskElsewhere(n.runs, n.tasks[u], q.conversation) {
      if u != t { NobodyPursuesPlace(s, u, q); }
    }
  }

  lemma FinishFreesPlace(s: System, r: Id, facts: Facts)
    requires r in s.runs && !s.runs[r].sealed && s.runs[r].handoff
      && !HasHandoff(s.memory.handoffs, s.runs[r].request.conversation)
    ensures s.runs[r].request.conversation !in Run(s, [Expire(r), Finish(r, facts)]).memory.handoffsReserved
  {
    RunTwice(s, Expire(r), Finish(r, facts));
    var n := Apply(s, Expire(r));
    assert MayFinish(n, r) && Apply(n, Finish(r, facts)) == FinishTurn(n, r, facts);
  }

  lemma WriteFreesPlace(s: System, u: Id, v: Id)
    requires u in s.tasks && WritesHandoff(s, s.tasks[u], v) && !HasHandoff(s.memory.handoffs, v)
    ensures v !in Run(s, [Advance(u, 0), Advance(u, 0)]).memory.handoffsReserved
  {
    RunTwice(s, Advance(u, 0), Advance(u, 0));
    var n := Apply(s, Advance(u, 0));
    assert n.tasks[u].StoringHandoff? && n.tasks[u].run == s.tasks[u].run && n.runs == s.runs && n.memory == s.memory;
  }

  /** The same for the conversation whose handoff is reserved when a lookup answers. */
  lemma PlaceLeakedForGood(steps: seq<Step>, t: Id, r: Id, reason: Id)
    requires ReservesPlace(Run(Init, steps), t, r, reason)
    ensures var s := Run(Init, steps);
            var v := s.runs[r].request.conversation;
            PlaceReservedForever(Apply(s, Advance(t, 0)), v) <==> s.runs[r].sealed && !HandoffBeingWritten(s, v)
  {
    RunSound(steps);
    var s := Run(Init, steps);
    var n, v := Apply(s, Advance(t, 0)), s.runs[r].request.conversation;
    if !s.runs[r].sealed {
      FinishFreesPlace(n, r, SomeFacts);
    } else if HandoffBeingWritten(s, v) {
      var u :| u in s.tasks && WritesHandoff(s, s.tasks[u], v);
      WriteFreesPlace(n, u, v);
    } else {
      LatePlaceIsStuck(s, t, r, reason);
      forall more ensures v in Run(n, more).memory.handoffsReserved {
        H.StuckForever(n, more, v);
      }
    }
  }
}
