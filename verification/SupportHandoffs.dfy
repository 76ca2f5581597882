/** Handoff reservations that nobody gives back: the conversation of a late reservation never gets a handoff again
(src/index.ts, beforeToolCall and finish). */
module SupportHandoffs {
  import opened Wrappers
  import opened SupportStore
  import opened SupportRuntime

  /** When every run is over, a place that is still reserved was taken by a run that was already over. */
  lemma OnlyLatePlacesLeak(steps: seq<Step>, v: Id)
    requires var s := Run(Init, steps); v in s.memory.handoffsReserved && forall r :: r in s.runs ==> s.runs[r].sealed
    ensures PlaceLate(Run(Init, steps).runs, v)
  {
    Reachable(steps);
    var s := Run(Init, steps);
    assert PlaceOk(s.memory, s.runs, v);
  }

  /** The handoff reserved when the lookup answers has no open holder, who alone gives it back, if and only if the run
  was sealed by then. */
  lemma LatePlaceLeaks(steps: seq<Step>, t: Id, r: Id, reason: Id)
    requires var s := Run(Init, steps);
             && t in s.tasks && s.tasks[t] == CheckingHandoff(r, reason) && r in s.runs
             && var q := s.runs[r].request;
                (q.tenant, q.store, q.conversation) !in s.handoffs && ReserveHandoff(s.memory, q.conversation).1
    ensures var s := Run(Init, steps);
            var n, v := Apply(s, Advance(t, 0)), s.runs[r].request.conversation;
            v in n.memory.handoffsReserved && (!PlaceOpen(n.runs, v) <==> s.runs[r].sealed)
  {
    Reachable(steps);
    var s := Run(Init, steps);
    LatePlace(s, t, r, reason);
  }

  lemma LatePlace(s: System, t: Id, r: Id, reason: Id)
    requires PlacesOk(s.memory, s.runs) && t in s.tasks && s.tasks[t] == CheckingHandoff(r, reason) && r in s.runs
    requires var q := s.runs[r].request;
             (q.tenant, q.store, q.conversation) !in s.handoffs && ReserveHandoff(s.memory, q.conversation).1
    ensures var n, v := Apply(s, Advance(t, 0)), s.runs[r].request.conversation;
            v in n.memory.handoffsReserved && (!PlaceOpen(n.runs, v) <==> s.runs[r].sealed)
  {
    var n, v := Apply(s, Advance(t, 0)), s.runs[r].request.conversation;
    assert n.runs == s.runs[r := Placing(s.runs[r])];
    assert PlaceOk(s.memory, s.runs, v) && HoldsPlace(n.runs[r], v);
    forall q | q in n.runs && !n.runs[q].sealed && s.runs[r].sealed ensures !HoldsPlace(n.runs[q], v) {
      assert n.runs[q] == s.runs[q];
    }
  }

  /** The task may yet create a handoff there; one of an aborted run that has not begun will not. */
  predicate PursuesPlace(runs: map<Id, Turn>, task: Task, v: Id) {
    && task.run in runs && runs[task.run].request.conversation == v
    && ((task.HandoffReady? && !runs[task.run].aborted) || task.PersistingHandoff? || task.StoringHandoff?)
  }

  predicate TaskElsewhere(runs: map<Id, Turn>, task: Task, v: Id) { task.run in runs && !PursuesPlace(runs, task, v) }

  /** The conversation's place is reserved, nobody holds it, and no call is creating its handoff. */
  ghost predicate StuckAt(s: System, v: Id) {
    && v in s.memory.handoffsReserved && !HasHandoff(s.memory.handoffs, v)
    && (forall k :: k in s.handoffs ==> k.2 != v)
    && (forall r :: r in s.runs && !s.runs[r].sealed ==> !HoldsPlace(s.runs[r], v))
    && (forall t :: t in s.tasks ==> TaskElsewhere(s.runs, s.tasks[t], v))
  }

  predicate TurnElsewhere(runs: map<Id, Turn>, r: Id, turn: Turn, v: Id) {
    if r in runs
    then turn.request == runs[r].request && (runs[r].sealed ==> turn.sealed) && (runs[r].aborted ==> turn.aborted)
         && (HoldsPlace(turn, v) ==> HoldsPlace(runs[r], v))
    else !turn.handoff
  }

  /** What a step may change without freeing the place or starting a handoff there. */
  lemma StaysStuck(s: System, n: System, r: Id, t: Id, v: Id)
    requires StuckAt(s, v) && v in n.memory.handoffsReserved && !HasHandoff(n.memory.handoffs, v)
    requires forall k :: k in n.handoffs ==> k in s.handoffs || k.2 != v
    requires n.runs == s.runs
      || (r in n.runs && n.runs == s.runs[r := n.runs[r]] && TurnElsewhere(s.runs, r, n.runs[r], v))
    requires TasksFrom(s.tasks, n.tasks, t)
    requires t in n.tasks ==> (t in s.tasks && n.tasks[t] == s.tasks[t]) || TaskElsewhere(s.runs, n.tasks[t], v)
    ensures StuckAt(n, v)
  {
    forall u | u in n.tasks ensures TaskElsewhere(n.runs, n.tasks[u], v) {
      if u in s.tasks && n.tasks[u] == s.tasks[u] { assert TaskElsewhere(s.runs, s.tasks[u], v); }
    }
  }

  lemma StuckReservation(s: System, t: Id, r: Id, key: string, summary: Id, v: Id)
    requires StuckAt(s, v) && r in s.runs
    ensures StuckAt(ReserveTicketFor(s, t, r, key, summary), v)
  {
    StaysStuck(s, ReserveTicketFor(s, t, r, key, summary), r, t, v);
  }

  /** Another reservation of the same place is refused. */
  lemma StuckPlacing(s: System, t: Id, r: Id, reason: Id, v: Id)
    requires StuckAt(s, v) && r in s.runs
    ensures StuckAt(ReserveHandoffFor(s, t, r, reason), v)
  {
    StaysStuck(s, ReserveHandoffFor(s, t, r, reason), r, t, v);
  }

  lemma StuckRow(s: System, t: Id, r: Id, reason: Id, v: Id)
    requires StuckAt(s, v) && r in s.runs && s.runs[r].request.conversation != v
    ensures var q := s.runs[r].request;
            var (rows, stored) := PersistHandoff(s.handoffs, q.tenant, q.store, q.conversation, reason);
            StuckAt(Goes(s.(handoffs := rows), t, StoringHandoff(r, stored)), v)
  {
    var q := s.runs[r].request;
    var (rows, stored) := PersistHandoff(s.handoffs, q.tenant, q.store, q.conversation, reason);
    StaysStuck(s, Goes(s.(handoffs := rows), t, StoringHandoff(r, stored)), r, t, v);
  }

  lemma OtherStored(m: Memory, conversation: Id, reason: Id, v: Id)
    requires v in m.handoffsReserved && !HasHandoff(m.handoffs, v) && conversation != v
    ensures var n := if HasHandoff(m.handoffs, conversation) then m else StoreHandoff(m, conversation, reason);
            v in n.handoffsReserved && !HasHandoff(n.handoffs, v)
  {
  }

  lemma StuckMemory(s: System, m: Memory, t: Id, v: Id)
    requires StuckAt(s, v) && v in m.handoffsReserved && !HasHandoff(m.handoffs, v)
    ensures StuckAt(Ended(s.(memory := m), t), v)
  {
    StaysStuck(s, Ended(s.(memory := m), t), 0, t, v);
  }

  lemma StuckMoved(s: System, t: Id, task: Task, v: Id)
    requires StuckAt(s, v) && TaskElsewhere(s.runs, task, v)
    ensures StuckAt(Goes(s, t, task), v)
  {
    StaysStuck(s, Goes(s, t, task), 0, t, v);
  }

  lemma StuckTicket(s: System, t: Id, newTicket: Id, v: Id)
    requires StuckAt(s, v) && t in s.tasks
      && (s.tasks[t].TicketReady? || s.tasks[t].PersistingTicket? || s.tasks[t].StoringTicket?)
    ensures StuckAt(AdvanceTask(s, t, newTicket), v)
  {
    assert TaskElsewhere(s.runs, s.tasks[t], v);
    StaysStuck(s, AdvanceTask(s, t, newTicket), 0, t, v);
  }

  lemma StuckAdvance(s: System, t: Id, newTicket: Id, v: Id)
    requires StuckAt(s, v) && t in s.tasks
    ensures StuckAt(AdvanceTask(s, t, newTicket), v)
  {
    var task := s.tasks[t];
    assert TaskElsewhere(s.runs, task, v);
    var q := s.runs[task.run].request;
    match task
    case CheckingTicket(r, key, summary) => StuckReservation(s, t, r, key, summary, v);
    case CheckingHandoff(r, reason) => StuckPlacing(s, t, r, reason, v);
    case HandoffReady(r, reason) =>
      StuckMemory(s, s.memory, t, v);
      if !s.runs[r].aborted { StuckMoved(s, t, PersistingHandoff(r, reason), v); }
    case PersistingHandoff(r, reason) => StuckRow(s, t, r, reason, v);
    case StoringHandoff(_, reason) =>
      OtherStored(s.memory, q.conversation, reason, v);
      StuckMemory(s, if HasHandoff(s.memory.handoffs, q.conversation) then s.memory
        else StoreHandoff(s.memory, q.conversation, reason), t, v);
    case _ => StuckTicket(s, t, newTicket, v);
  }

  lemma StuckFinish(s: System, r: Id, facts: Facts, v: Id)
    requires StuckAt(s, v) && r in s.runs && !s.runs[r].sealed
    ensures StuckAt(FinishTurn(s, r, facts), v)
  {
    assert !HoldsPlace(s.runs[r], v);
    StaysStuck(s, FinishTurn(s, r, facts), r, 0, v);
  }

  lemma StuckSafety(s: System, r: Id, t: Id, reason: Id, v: Id)
    requires StuckAt(s, v)
    ensures StuckAt(Apply(s, SafetyHandoff(r, t, reason)), v)
  {
    StaysStuck(s, Apply(s, SafetyHandoff(r, t, reason)), r, t, v);
  }

  lemma StuckStep(s: System, step: Step, v: Id)
    requires StuckAt(s, v)
    ensures StuckAt(Apply(s, step), v)
  {
    match step
    case Advance(t, newTicket) => if t in s.tasks { StuckAdvance(s, t, newTicket, v); }
    case Finish(r, facts) => if r in s.runs && !s.runs[r].sealed { StuckFinish(s, r, facts, v); }
    case SafetyHandoff(r, t, reason) => StuckSafety(s, r, t, reason, v);
    case CallTicket(r, t, key, summary) => if r in s.runs { StuckMoved(s, t, CheckingTicket(r, key, summary), v); }
    case CallHandoff(r, t, reason) => if r in s.runs { StuckMoved(s, t, CheckingHandoff(r, reason), v); }
    case Drop(t) => StuckMemory(s, s.memory, t, v);
    case Start(r, q) => StaysStuck(s, Apply(s, step), r, 0, v);
    case Expire(r) => StaysStuck(s, Apply(s, step), r, 0, v);
  }

  /** A stuck conversation stays stuck: whatever happens from there, it never gets a handoff, in memory or durable. */
  lemma {:induction false} StuckForever(s: System, steps: seq<Step>, v: Id)
    requires StuckAt(s, v)
    ensures StuckAt(Run(s, steps), v)
  {
    if steps != [] {
      StuckForever(s, steps[..|steps| - 1], v);
      StuckStep(Run(s, steps[..|steps| - 1]), steps[|steps| - 1], v);
    }
  }

  /** The turn is over, and its handoff lookup has yet to answer. */
  predicate LookupPending(s: System, q: Request) {
    && s.tasks == map[0 := CheckingHandoff(0, 0)] && s.runs.Keys == {0} && s.runs[0].request == q
    && s.runs[0].sealed && s.runs[0].aborted
    && s.memory.handoffsReserved == {} && s.memory.handoffs == [] && s.handoffs == map[]
  }

  lemma CalledFirst(q: Request)
    ensures var s := Apply(Apply(Init, Start(0, q)), CallHandoff(0, 0, 0));
            && s.tasks == map[0 := CheckingHandoff(0, 0)]
            && s.runs == map[0 := Turn(q, false, false, {}, false, {}, false, None)]
            && s.memory == Init.memory && s.handoffs == map[]
  {
  }

  lemma ThenClosed(s: System, q: Request, facts: Facts)
    requires s.tasks == map[0 := CheckingHandoff(0, 0)]
      && s.runs == map[0 := Turn(q, false, false, {}, false, {}, false, None)]
    requires s.memory == Init.memory && s.handoffs == map[]
    ensures LookupPending(Apply(Apply(s, Expire(0)), Finish(0, facts)), q)
  {
    var n := Apply(s, Expire(0));
    assert n.runs[0].aborted && MayFinish(n, 0);
    assert Apply(n, Finish(0, facts)) == FinishTurn(n, 0, facts);
  }

  lemma ThenReserved(s: System, q: Request)
    requires LookupPending(s, q)
    ensures StuckAt(Apply(Apply(s, Advance(0, 0)), Advance(0, 0)), q.conversation)
  {
    var n := Apply(s, Advance(0, 0));
    assert n.tasks == map[0 := HandoffReady(0, 0)] && n.runs[0].aborted && n.runs[0].sealed && n.runs.Keys == {0};
    assert q.conversation in n.memory.handoffsReserved && n.memory.handoffs == [] && n.handoffs == map[];
    assert Apply(n, Advance(0, 0)) == Ended(n, 0);
  }

  lemma RunLast(steps: seq<Step>, step: Step)
    ensures Run(Init, steps + [step]) == Apply(Run(Init, steps), step)
  {
    assert (steps + [step])[..|steps|] == steps;
  }

  lemma RunTwo(steps: seq<Step>, a: Step, b: Step)
    ensures Run(Init, steps + [a] + [b]) == Apply(Apply(Run(Init, steps), a), b)
  {
    RunLast(steps, a);
    RunLast(steps + [a], b);
  }

  /** Such a run: the turn times out and is finished while its handoff lookup is still under way. */
  lemma ClosedDuringLookup(q: Request, facts: Facts) returns (steps: seq<Step>)
    ensures StuckAt(Run(Init, steps), q.conversation)
  {
    var called := [] + [Start(0, q)] + [CallHandoff(0, 0, 0)];
    RunTwo([], Start(0, q), CallHandoff(0, 0, 0));
    CalledFirst(q);
    var closed := called + [Expire(0)] + [Finish(0, facts)];
    RunTwo(called, Expire(0), Finish(0, facts));
    ThenClosed(Run(Init, called), q, facts);
    steps := closed + [Advance(0, 0)] + [Advance(0, 0)];
    RunTwo(closed, Advance(0, 0), Advance(0, 0));
    ThenReserved(Run(Init, closed), q);
  }
}
