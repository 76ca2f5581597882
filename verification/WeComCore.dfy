/** The internal message pipeline as a transition system: any number of handle calls in flight over one table, each
statement and each external call one step with an arbitrary answer, and a crash possible between any two steps
(src/channels/wecom/core.ts). */
module WeComCore {
  import opened Wrappers
  import opened StoreOps
  import opened WeComInbound

  /** Who a message is answered for, and in which conversation. */
  datatype Work = Work(identity: Identity, conversation: Id, customer: Id)

  /** What a handle call does next. Aborting is its catch block, with the two flags it reads. */
  datatype Stage =
    | Claiming
    | Resolving
    | Mapping(identity: Identity)
    | Rechecking(work: Work)
    | Attaching(work: Work)
    | Responding(work: Work)
    | Verifying(work: Work)
    | Marking(work: Work)
    | Sending(work: Work)
    | Completing(work: Work)
    | Aborting(dispatched: bool, uncertain: bool)

  datatype Call = Call(message: Message, stage: Stage)

  /** The agent was started; outbound.send was called; outbound.send returned. */
  datatype Effect = Responded(key: Key, work: Work) | SendCalled(key: Key) | SendReturned(key: Key)

  datatype System = System(
    rows: Rows, conversations: map<Id, Owner>, bindings: map<Id, Binding>, calls: map<Id, Call>, effects: seq<Effect>)

  const Init := System(map[], map[], map[], map[], [])

  /** Lost is a failed statement or call, or a committed one whose acknowledgement never arrived. */
  datatype Reply = Done | Lost(committed: bool) | Resolved(identity: Option<Identity>)
    | Mapped(conversation: Id, customer: Id)

  datatype Step =
    | Receive(call: Id, message: Message)
    | Advance(call: Id, reply: Reply)
    | Crash(call: Id)
    | OpenConversation(conversation: Id, owner: Owner)
    | Rebind(bindings: map<Id, Binding>)

  function Without(calls: map<Id, Call>, c: Id): map<Id, Call> { map k | k in calls && k != c :: calls[k] }

  /** The call moves on; rows change; effects happen. */
  function Moved(s: System, c: Id, stage: Stage, rows: Rows, effects: seq<Effect>): System
    requires c in s.calls
  {
    s.(rows := rows, calls := s.calls[c := s.calls[c].(stage := stage)], effects := s.effects + effects)
  }

  function Returned(s: System, c: Id, rows: Rows): System { s.(rows := rows, calls := Without(s.calls, c)) }

  /** Whether the identity resolved again is the one resolved at first; sameIdentity. */
  predicate Same(reply: Reply, identity: Identity) { reply.Resolved? && reply.identity == Some(identity) }

  function AdvanceClaim(s: System, c: Id, m: Message, reply: Reply): System
    requires c in s.calls
  {
    var (rows, status) := Claim(s.rows, m);
    if reply.Done? then if status.Claimed? then Moved(s, c, Resolving, rows, []) else Returned(s, c, rows)
    else if reply.Lost? then Returned(s, c, if reply.committed then rows else s.rows)
    else s
  }

  function AdvanceAttach(s: System, c: Id, m: Message, w: Work, reply: Reply): System
    requires c in s.calls
  {
    var (rows, ok) := Attach(s.rows, s.conversations, s.bindings, KeyOf(m), w.identity, w.conversation, w.customer);
    if reply.Done? then
      if ok then Moved(s, c, Responding(w), rows, [Responded(KeyOf(m), w)])
      else Moved(s, c, Aborting(false, false), s.rows, [])
    else if reply.Lost? then Moved(s, c, Aborting(false, false), if reply.committed then rows else s.rows, [])
    else s
  }

  function AdvanceMark(s: System, c: Id, m: Message, w: Work, reply: Reply): System
    requires c in s.calls
  {
    var (rows, changed) := MarkUncertain(s.rows, KeyOf(m));
    if reply.Done? then
      if changed then Moved(s, c, Sending(w), rows, [SendCalled(KeyOf(m))])
      else Moved(s, c, Aborting(true, true), s.rows, [])
    else if reply.Lost? then Moved(s, c, Aborting(true, true), if reply.committed then rows else s.rows, [])
    else s
  }

  function AdvanceComplete(s: System, c: Id, m: Message, reply: Reply): System
    requires c in s.calls
  {
    var (rows, changed) := Finish(s.rows, KeyOf(m), Completed, Sent);
    if reply.Done? then if changed then Returned(s, c, rows) else Moved(s, c, Aborting(true, true), s.rows, [])
    else if reply.Lost? then Moved(s, c, Aborting(true, true), if reply.committed then rows else s.rows, [])
    else s
  }

  function AdvanceAbort(s: System, c: Id, m: Message, dispatched: bool, uncertain: bool, reply: Reply): System
    requires c in s.calls
  {
    var (rows, _) := Finish(s.rows, KeyOf(m), if dispatched then Indeterminate else Failed,
      if uncertain then Uncertain else NotSent);
    if reply.Done? || reply == Lost(true) then Returned(s, c, rows)
    else if reply.Lost? then Returned(s, c, s.rows) else s
  }

  ghost function AdvanceCall(s: System, c: Id, reply: Reply): System
    requires c in s.calls
  {
    var m := s.calls[c].message;
    if reply.Resolved? && !Resolves(s.bindings, m, reply.identity) then s
    else
      match s.calls[c].stage
      case Claiming => AdvanceClaim(s, c, m, reply)
      case Resolving =>
        if reply.Resolved? && reply.identity.Some? then Moved(s, c, Mapping(reply.identity.value), s.rows, [])
        else if reply.Resolved? || reply.Lost? then Moved(s, c, Aborting(false, false), s.rows, [])
        else s
      case Mapping(identity) =>
        if reply.Mapped? then Moved(s, c, Rechecking(Work(identity, reply.conversation, reply.customer)), s.rows, [])
        else if reply.Lost? then Moved(s, c, Aborting(false, false), s.rows, [])
        else s
      case Rechecking(w) =>
        if Same(reply, w.identity) then Moved(s, c, Attaching(w), s.rows, [])
        else if reply.Resolved? || reply.Lost? then Moved(s, c, Aborting(false, false), s.rows, [])
        else s
      case Attaching(w) => AdvanceAttach(s, c, m, w, reply)
      case Responding(w) =>
        if reply.Done? then Moved(s, c, Verifying(w), s.rows, [])
        else if reply.Lost? then Moved(s, c, Aborting(true, false), s.rows, [])
        else s
      case Verifying(w) =>
        if Same(reply, w.identity) then Moved(s, c, Marking(w), s.rows, [])
        else if reply.Resolved? || reply.Lost? then Moved(s, c, Aborting(true, false), s.rows, [])
        else s
      case Marking(w) => AdvanceMark(s, c, m, w, reply)
      case Sending(w) =>
        if reply.Done? then Moved(s, c, Completing(w), s.rows, [SendReturned(KeyOf(m))])
        else if reply.Lost? then Moved(s, c, Aborting(true, true), s.rows, [])
        else s
      case Completing(w) => AdvanceComplete(s, c, m, reply)
      case Aborting(dispatched, uncertain) => AdvanceAbort(s, c, m, dispatched, uncertain, reply)
  }

  /** One step; a step that is not enabled changes nothing. */
  ghost function Apply(s: System, step: Step): System {
    match step
    case Receive(c, m) => if c in s.calls then s else s.(calls := s.calls[c := Call(m, Claiming)])
    case Advance(c, reply) => if c in s.calls then AdvanceCall(s, c, reply) else s
    case Crash(c) => s.(calls := Without(s.calls, c))
    case OpenConversation(v, owner) =>
      if v in s.conversations then s else s.(conversations := s.conversations[v := owner])
    case Rebind(bindings) => s.(bindings := bindings)
  }

  ghost function Run(s: System, steps: seq<Step>): System {
    if steps == [] then s else Apply(Run(s, steps[..|steps| - 1]), steps[|steps| - 1])
  }

  // What is counted

  datatype Tally = Tally(responded: nat, called: nat, returned: nat)

  function TallyOf(effects: seq<Effect>, k: Key): Tally {
    if effects == [] then Tally(0, 0, 0)
    else
      var t, e := TallyOf(effects[..|effects| - 1], k), effects[|effects| - 1];
      if e.key != k then t
      else match e
           case Responded(_, _) => t.(responded := t.responded + 1)
           case SendCalled(_) => t.(called := t.called + 1)
           case SendReturned(_) => t.(returned := t.returned + 1)
  }

  function Counted(t: Tally, effects: seq<Effect>, k: Key): Tally
    requires |effects| <= 1
  {
    if effects == [] || effects[0].key != k then t
    else match effects[0]
         case Responded(_, _) => t.(responded := t.responded + 1)
         case SendCalled(_) => t.(called := t.called + 1)
         case SendReturned(_) => t.(returned := t.returned + 1)
  }

  lemma TallyGrows(effects: seq<Effect>, more: seq<Effect>, k: Key)
    requires |more| <= 1
    ensures TallyOf(effects + more, k) == Counted(TallyOf(effects, k), more, k)
  {
    if more == [] {
      assert effects + more == effects;
    } else {
      assert (effects + more)[..|effects|] == effects;
    }
  }

  // The invariant of one message

  /** What holds of a message whoever works on it. */
  predicate Settled(row: Row, t: Tally) {
    && t.returned <= t.called <= t.responded <= 1
    && (row.delivery.NotSent? ==> t.called == 0)
    && (row.delivery.Sent? ==> t.returned == 1)
    && (row.state.Completed? <==> row.delivery.Sent?)
    && (row.state.Failed? ==> t.responded == 0 && row.delivery.NotSent?)
    && (row.state.Indeterminate? ==> t.responded == 1)
    && (t.responded == 1 ==> row.attached.Some?)
  }

  /** What holds of a message while a call works on it. */
  predicate Owned(stage: Stage, row: Row, t: Tally) {
    match stage
    case Claiming => true
    case Resolving => Untouched(row, t)
    case Mapping(_) => Untouched(row, t)
    case Rechecking(_) => Untouched(row, t)
    case Attaching(_) => Untouched(row, t)
    case Responding(w) => Dispatched(row, w, NotSent) && t == Tally(1, 0, 0)
    case Verifying(w) => Dispatched(row, w, NotSent) && t == Tally(1, 0, 0)
    case Marking(w) => Dispatched(row, w, NotSent) && t == Tally(1, 0, 0)
    case Sending(w) => Dispatched(row, w, Uncertain) && t == Tally(1, 1, 0)
    case Completing(w) => Dispatched(row, w, Uncertain) && t == Tally(1, 1, 1)
    case Aborting(d, u) =>
      && Settled(row, t) && (row.state.Processing? || row.state.Completed?)
      && (u ==> d)
      && (row.state.Processing? ==> t.responded == (if d then 1 else 0) && (!u ==> row.delivery.NotSent?))
  }

  predicate Untouched(row: Row, t: Tally) {
    row.state.Processing? && row.delivery.NotSent? && row.attached.None? && t == Tally(0, 0, 0)
  }

  predicate Dispatched(row: Row, w: Work, d: Delivery) {
    row.state.Processing? && row.delivery == d && row.attached == Some(Place(w.identity, w.conversation))
  }

  predicate Works(calls: map<Id, Call>, c: Id, k: Key) {
    c in calls && !calls[c].stage.Claiming? && KeyOf(calls[c].message) == k
  }

  ghost predicate MessageOk(rows: Rows, calls: map<Id, Call>, effects: seq<Effect>, k: Key) {
    && (k in rows ==> Settled(rows[k], TallyOf(effects, k)) && KeyOf(rows[k].payload) == k)
    && (k !in rows ==> TallyOf(effects, k) == Tally(0, 0, 0))
    && (forall c :: Works(calls, c, k) ==> k in rows && Owned(calls[c].stage, rows[k], TallyOf(effects, k)))
    && (forall c, d :: Works(calls, c, k) && Works(calls, d, k) ==> c == d)
  }

  ghost predicate MessagesOk(s: System) {
    forall k :: MessageOk(s.rows, s.calls, s.effects, k)
  }

  /** A step on message k leaves every other message as it was. */
  lemma OthersKept(s: System, k: Key, c: Id, rows: Rows, calls: map<Id, Call>, more: seq<Effect>, j: Key)
    requires MessageOk(s.rows, s.calls, s.effects, j) && j != k
    requires (j in rows <==> j in s.rows) && (j in rows ==> rows[j] == s.rows[j])
    requires forall d :: d != c ==> (d in calls <==> d in s.calls) && (d in calls ==> calls[d] == s.calls[d])
    requires c in calls ==> KeyOf(calls[c].message) == k
    requires |more| <= 1 && (more != [] ==> more[0].key == k)
    ensures MessageOk(rows, calls, s.effects + more, j)
  {
    TallyGrows(s.effects, more, j);
    forall d | Works(calls, d, j) ensures Works(s.calls, d, j) {
    }
  }

  /** What a step may do to the message k of call c. */
  predicate Changes(before: Rows, after: Rows, k: Key) {
    after.Keys - {k} == before.Keys - {k} && forall j :: j in before && j in after && j != k ==> after[j] == before[j]
  }

  predicate OnlyCall(before: map<Id, Call>, after: map<Id, Call>, c: Id) {
    after.Keys - {c} == before.Keys - {c} && forall d :: d in before && d in after && d != c ==> after[d] == before[d]
  }

  /** A step on call c and its message k keeps all messages if it keeps k. */
  lemma Kept(s: System, k: Key, c: Id, rows: Rows, calls: map<Id, Call>, more: seq<Effect>)
    requires MessagesOk(s) && Changes(s.rows, rows, k) && OnlyCall(s.calls, calls, c)
    requires c in calls ==> KeyOf(calls[c].message) == k
    requires |more| <= 1 && (more != [] ==> more[0].key == k)
    requires MessageOk(rows, calls, s.effects + more, k)
    ensures forall j :: MessageOk(rows, calls, s.effects + more, j)
  {
    forall j ensures MessageOk(rows, calls, s.effects + more, j) {
      if j != k {
        assert MessageOk(s.rows, s.calls, s.effects, j);
        assert j in rows <==> j in rows.Keys - {k};
        assert j in s.rows <==> j in s.rows.Keys - {k};
        forall d | d != c ensures (d in calls <==> d in s.calls) && (d in calls ==> calls[d] == s.calls[d]) {
          assert d in calls <==> d in calls.Keys - {c};
          assert d in s.calls <==> d in s.calls.Keys - {c};
        }
        OthersKept(s, k, c, rows, calls, more, j);
      }
    }
  }

  /** The owner of k moves on, or leaves. */
  lemma OwnerMoves(s: System, k: Key, c: Id, stage: Option<Stage>, row: Row, more: seq<Effect>)
    requires MessageOk(s.rows, s.calls, s.effects, k) && Works(s.calls, c, k) && k in s.rows
      && row.payload == s.rows[k].payload
    requires |more| <= 1 && (stage.Some? ==> !stage.value.Claiming?)
    requires var t := Counted(TallyOf(s.effects, k), more, k);
             Settled(row, t) && (stage.Some? ==> Owned(stage.value, row, t))
    ensures var calls := if stage.Some? then s.calls[c := s.calls[c].(stage := stage.value)] else Without(s.calls, c);
            MessageOk(s.rows[k := row], calls, s.effects + more, k)
  {
    TallyGrows(s.effects, more, k);
    var calls := if stage.Some? then s.calls[c := s.calls[c].(stage := stage.value)] else Without(s.calls, c);
    forall d | Works(calls, d, k) ensures d == c && stage.Some? {
      assert Works(s.calls, d, k);
    }
  }

  function Next(s: System, k: Key, c: Id, stage: Option<Stage>, row: Row, more: seq<Effect>): System
    requires c in s.calls
  {
    s.(rows := s.rows[k := row],
       calls := if stage.Some? then s.calls[c := s.calls[c].(stage := stage.value)] else Without(s.calls, c),
       effects := s.effects + more)
  }

  /** One step of the owner of a message. */
  lemma OwnerStep(s: System, k: Key, c: Id, stage: Option<Stage>, row: Row, more: seq<Effect>)
    requires MessagesOk(s) && Works(s.calls, c, k) && k in s.rows && row.payload == s.rows[k].payload
    requires |more| <= 1 && (more != [] ==> more[0].key == k) && (stage.Some? ==> !stage.value.Claiming?)
    requires var t := Counted(TallyOf(s.effects, k), more, k);
             Settled(row, t) && (stage.Some? ==> Owned(stage.value, row, t))
    ensures MessagesOk(Next(s, k, c, stage, row, more))
  {
    assert MessageOk(s.rows, s.calls, s.effects, k);
    OwnerMoves(s, k, c, stage, row, more);
    var n := Next(s, k, c, stage, row, more);
    Kept(s, k, c, n.rows, n.calls, more);
  }

  lemma OwnerFacts(s: System, c: Id, k: Key)
    requires MessagesOk(s) && Works(s.calls, c, k)
    ensures k in s.rows && Owned(s.calls[c].stage, s.rows[k], TallyOf(s.effects, k))
      && Settled(s.rows[k], TallyOf(s.effects, k))
  {
    assert MessageOk(s.rows, s.calls, s.effects, k);
  }

  /** The owner moves on without touching its message. */
  lemma OwnerWalks(s: System, k: Key, c: Id, stage: Stage)
    requires MessagesOk(s) && Works(s.calls, c, k) && !stage.Claiming?
    requires k in s.rows ==> Owned(stage, s.rows[k], TallyOf(s.effects, k))
    ensures MessagesOk(Moved(s, c, stage, s.rows, []))
  {
    OwnerFacts(s, c, k);
    OwnerStep(s, k, c, Some(stage), s.rows[k], []);
    assert s.rows[k := s.rows[k]] == s.rows;
  }

  /** The owner moves on and its message changes. */
  lemma OwnerActs(s: System, k: Key, c: Id, stage: Stage, row: Row, more: seq<Effect>)
    requires MessagesOk(s) && Works(s.calls, c, k) && k in s.rows && row.payload == s.rows[k].payload
    requires |more| <= 1 && (more != [] ==> more[0].key == k) && !stage.Claiming?
    requires var t := Counted(TallyOf(s.effects, k), more, k); Settled(row, t) && Owned(stage, row, t)
    ensures MessagesOk(Moved(s, c, stage, s.rows[k := row], more))
  {
    OwnerStep(s, k, c, Some(stage), row, more);
  }

  /** The owner is done. */
  lemma OwnerLeaves(s: System, k: Key, c: Id, row: Row)
    requires MessagesOk(s) && Works(s.calls, c, k) && k in s.rows && row.payload == s.rows[k].payload
    requires Settled(row, TallyOf(s.effects, k))
    ensures MessagesOk(Returned(s, c, s.rows[k := row]))
  {
    OwnerStep(s, k, c, None, row, []);
    assert s.effects + [] == s.effects;
  }

  lemma OwnerQuits(s: System, k: Key, c: Id)
    requires MessagesOk(s) && Works(s.calls, c, k)
    ensures MessagesOk(Returned(s, c, s.rows))
  {
    OwnerFacts(s, c, k);
    OwnerLeaves(s, k, c, s.rows[k]);
    assert s.rows[k := s.rows[k]] == s.rows;
  }

  /** A call that owns nothing appears, leaves or crashes. */
  lemma BystanderKept(s: System, c: Id, calls: map<Id, Call>)
    requires MessagesOk(s) && OnlyCall(s.calls, calls, c)
    requires c in calls ==> calls[c].stage.Claiming?
    ensures MessagesOk(s.(calls := calls))
  {
    forall k ensures MessageOk(s.rows, calls, s.effects, k) {
      assert MessageOk(s.rows, s.calls, s.effects, k);
      forall d | Works(calls, d, k) ensures Works(s.calls, d, k) && calls[d] == s.calls[d] {
        assert d in calls.Keys - {c};
      }
    }
  }

  lemma WithoutOnly(calls: map<Id, Call>, c: Id)
    ensures OnlyCall(calls, Without(calls, c), c)
  {
    assert Without(calls, c).Keys - {c} == calls.Keys - {c};
  }

  /** A message that nobody claimed before has one owner from its claim on. */
  lemma ClaimedKept(s: System, c: Id, stays: bool)
    requires MessagesOk(s) && c in s.calls && s.calls[c].stage.Claiming? && KeyOf(s.calls[c].message) !in s.rows
    ensures var m := s.calls[c].message;
            var rows := s.rows[KeyOf(m) := Row(m, Processing, NotSent, None)];
            MessagesOk(if stays then Moved(s, c, Resolving, rows, []) else Returned(s, c, rows))
  {
    var m := s.calls[c].message;
    var k := KeyOf(m);
    var rows := s.rows[k := Row(m, Processing, NotSent, None)];
    var calls := if stays then s.calls[c := s.calls[c].(stage := Resolving)] else Without(s.calls, c);
    assert MessageOk(s.rows, s.calls, s.effects, k);
    forall d | Works(calls, d, k) ensures d == c && stays {
      assert d != c ==> Works(s.calls, d, k);
    }
    assert s.effects + [] == s.effects;
    assert MessageOk(rows, calls, s.effects + [], k);
    if !stays { WithoutOnly(s.calls, c); }
    assert OnlyCall(s.calls, calls, c);
    Kept(s, k, c, rows, calls, []);
  }

  lemma ClaimKeeps(s: System, c: Id, reply: Reply)
    requires MessagesOk(s) && c in s.calls && s.calls[c].stage.Claiming?
    ensures MessagesOk(AdvanceClaim(s, c, s.calls[c].message, reply))
  {
    WithoutOnly(s.calls, c);
    BystanderKept(s, c, Without(s.calls, c));
    if KeyOf(s.calls[c].message) !in s.rows {
      ClaimedKept(s, c, true);
      ClaimedKept(s, c, false);
    }
  }

  lemma AttachKeeps(s: System, c: Id, w: Work, reply: Reply)
    requires MessagesOk(s) && c in s.calls && s.calls[c].stage == Attaching(w)
    ensures MessagesOk(AdvanceAttach(s, c, s.calls[c].message, w, reply))
  {
    var k := KeyOf(s.calls[c].message);
    OwnerFacts(s, c, k);
    var row := s.rows[k].(attached := Some(Place(w.identity, w.conversation)));
    OwnerWalks(s, k, c, Aborting(false, false));
    OwnerActs(s, k, c, Aborting(false, false), row, []);
    OwnerActs(s, k, c, Responding(w), row, [Responded(k, w)]);
  }

  lemma MarkKeeps(s: System, c: Id, w: Work, reply: Reply)
    requires MessagesOk(s) && c in s.calls && s.calls[c].stage == Marking(w)
    ensures MessagesOk(AdvanceMark(s, c, s.calls[c].message, w, reply))
  {
    var k := KeyOf(s.calls[c].message);
    OwnerFacts(s, c, k);
    var row := s.rows[k].(delivery := Uncertain);
    OwnerWalks(s, k, c, Aborting(true, true));
    OwnerActs(s, k, c, Aborting(true, true), row, []);
    OwnerActs(s, k, c, Sending(w), row, [SendCalled(k)]);
  }

  lemma CompleteKeeps(s: System, c: Id, w: Work, reply: Reply)
    requires MessagesOk(s) && c in s.calls && s.calls[c].stage == Completing(w)
    ensures MessagesOk(AdvanceComplete(s, c, s.calls[c].message, reply))
  {
    var k := KeyOf(s.calls[c].message);
    OwnerFacts(s, c, k);
    var row := s.rows[k].(state := Completed, delivery := Sent);
    OwnerWalks(s, k, c, Aborting(true, true));
    OwnerActs(s, k, c, Aborting(true, true), row, []);
    OwnerLeaves(s, k, c, row);
  }

  lemma AbortKeeps(s: System, c: Id, d: bool, u: bool, reply: Reply)
    requires MessagesOk(s) && c in s.calls && s.calls[c].stage == Aborting(d, u)
    ensures MessagesOk(AdvanceAbort(s, c, s.calls[c].message, d, u, reply))
  {
    var k := KeyOf(s.calls[c].message);
    OwnerFacts(s, c, k);
    OwnerQuits(s, k, c);
    if s.rows[k].state.Processing? {
      OwnerLeaves(s, k, c,
        s.rows[k].(state := if d then Indeterminate else Failed, delivery := if u then Uncertain else NotSent));
    }
  }

  lemma SendKeeps(s: System, c: Id, w: Work)
    requires MessagesOk(s) && c in s.calls && s.calls[c].stage == Sending(w)
    ensures MessagesOk(Moved(s, c, Completing(w), s.rows, [SendReturned(KeyOf(s.calls[c].message))]))
    ensures MessagesOk(Moved(s, c, Aborting(true, true), s.rows, []))
  {
    var k := KeyOf(s.calls[c].message);
    OwnerFacts(s, c, k);
    OwnerWalks(s, k, c, Aborting(true, true));
    OwnerActs(s, k, c, Completing(w), s.rows[k], [SendReturned(k)]);
    assert s.rows[k := s.rows[k]] == s.rows;
  }

  /** Before the attachment: every way on leaves the message untouched. */
  lemma EarlyKeeps(s: System, c: Id, reply: Reply)
    requires MessagesOk(s) && c in s.calls
    requires s.calls[c].stage.Resolving? || s.calls[c].stage.Mapping? || s.calls[c].stage.Rechecking?
    ensures MessagesOk(AdvanceCall(s, c, reply))
  {
    var k := KeyOf(s.calls[c].message);
    OwnerFacts(s, c, k);
    OwnerWalks(s, k, c, Aborting(false, false));
    match s.calls[c].stage
    case Resolving => if reply.Resolved? && reply.identity.Some? { OwnerWalks(s, k, c, Mapping(reply.identity.value)); }
    case Mapping(i) =>
      if reply.Mapped? { OwnerWalks(s, k, c, Rechecking(Work(i, reply.conversation, reply.customer))); }
    case Rechecking(w) => OwnerWalks(s, k, c, Attaching(w));
  }

  lemma LateKeeps(s: System, c: Id, reply: Reply)
    requires MessagesOk(s) && c in s.calls && (s.calls[c].stage.Responding? || s.calls[c].stage.Verifying?)
    ensures MessagesOk(AdvanceCall(s, c, reply))
  {
    var k := KeyOf(s.calls[c].message);
    OwnerFacts(s, c, k);
    OwnerWalks(s, k, c, Aborting(true, false));
    match s.calls[c].stage
    case Responding(w) => OwnerWalks(s, k, c, Verifying(w));
    case Verifying(w) => OwnerWalks(s, k, c, Marking(w));
  }

  lemma AdvanceKeeps(s: System, c: Id, reply: Reply)
    requires MessagesOk(s) && c in s.calls
    ensures MessagesOk(AdvanceCall(s, c, reply))
  {
    match s.calls[c].stage
    case Claiming => ClaimKeeps(s, c, reply);
    case Resolving => EarlyKeeps(s, c, reply);
    case Mapping(_) => EarlyKeeps(s, c, reply);
    case Rechecking(_) => EarlyKeeps(s, c, reply);
    case Attaching(w) => AttachKeeps(s, c, w, reply);
    case Responding(_) => LateKeeps(s, c, reply);
    case Verifying(_) => LateKeeps(s, c, reply);
    case Marking(w) => MarkKeeps(s, c, w, reply);
    case Sending(w) => SendKeeps(s, c, w);
    case Completing(w) => CompleteKeeps(s, c, w, reply);
    case Aborting(d, u) => AbortKeeps(s, c, d, u, reply);
  }

  lemma MessagesKept(s: System, step: Step)
    requires MessagesOk(s)
    ensures MessagesOk(Apply(s, step))
  {
    match step
    case Receive(c, m) => if c !in s.calls { BystanderKept(s, c, s.calls[c := Call(m, Claiming)]); }
    case Advance(c, reply) => if c in s.calls { AdvanceKeeps(s, c, reply); }
    case Crash(c) =>
      WithoutOnly(s.calls, c);
      BystanderKept(s, c, Without(s.calls, c));
    case OpenConversation(v, owner) => assert Apply(s, step).rows == s.rows && Apply(s, step).calls == s.calls;
    case Rebind(bindings) => assert Apply(s, step).rows == s.rows && Apply(s, step).calls == s.calls;
  }

  // What a step may do to the rows

  predicate InScope(conversations: map<Id, Owner>, at: Attachment) {
    at.conversation in conversations && conversations[at.conversation].tenant == at.tenant
      && conversations[at.conversation].store == at.store
  }

  /** A row changes only while it is processing, and is attached at most once, to a conversation nobody blocks. */
  ghost predicate Evolves(rows: Rows, conversations: map<Id, Owner>, r: Row, after: Row) {
    && r.state.Processing?
    && after.payload == r.payload
    && (after.attached == r.attached
        || (r.attached.None? && after.attached.Some? && !Busy(rows, after.attached.value)
             && InScope(conversations, after.attached.value)))
  }

  ghost predicate ChangedAt(before: Rows, after: Rows, conversations: map<Id, Owner>, k: Key) {
    after == before
    || (&& k in after && after == before[k := after[k]]
        && (k in before ==> Evolves(before, conversations, before[k], after[k]))
        && (k !in before ==> after[k].attached.None? && after[k].state.Processing?))
  }

  /** Each step changes at most the row of one message. */
  lemma StepRows(s: System, step: Step) returns (k: Key)
    ensures ChangedAt(s.rows, Apply(s, step).rows, s.conversations, k)
    ensures forall v :: v in s.conversations
              ==> v in Apply(s, step).conversations && Apply(s, step).conversations[v] == s.conversations[v]
  {
    if step.Advance? && step.call in s.calls {
      k := KeyOf(s.calls[step.call].message);
      AdvanceRows(s, step.call, step.reply);
      AdvanceConversations(s, step.call, step.reply);
    } else {
      k := (0, 0, 0);
      assert Apply(s, step).rows == s.rows;
    }
  }

  lemma AttachRows(s: System, c: Id, w: Work, reply: Reply)
    requires c in s.calls
    ensures ChangedAt(s.rows, AdvanceAttach(s, c, s.calls[c].message, w, reply).rows, s.conversations,
      KeyOf(s.calls[c].message))
  {
  }

  lemma ClaimRows(s: System, c: Id, reply: Reply)
    requires c in s.calls
    ensures ChangedAt(s.rows, AdvanceClaim(s, c, s.calls[c].message, reply).rows, s.conversations,
      KeyOf(s.calls[c].message))
  {
  }

  lemma MarkRows(s: System, c: Id, w: Work, reply: Reply)
    requires c in s.calls
    ensures ChangedAt(s.rows, AdvanceMark(s, c, s.calls[c].message, w, reply).rows, s.conversations,
      KeyOf(s.calls[c].message))
  {
  }

  lemma CompleteRows(s: System, c: Id, reply: Reply)
    requires c in s.calls
    ensures ChangedAt(s.rows, AdvanceComplete(s, c, s.calls[c].message, reply).rows, s.conversations,
      KeyOf(s.calls[c].message))
  {
  }

  lemma AbortRows(s: System, c: Id, d: bool, u: bool, reply: Reply)
    requires c in s.calls
    ensures ChangedAt(s.rows, AdvanceAbort(s, c, s.calls[c].message, d, u, reply).rows, s.conversations,
      KeyOf(s.calls[c].message))
  {
  }

  lemma AdvanceRows(s: System, c: Id, reply: Reply)
    requires c in s.calls
    ensures ChangedAt(s.rows, AdvanceCall(s, c, reply).rows, s.conversations, KeyOf(s.calls[c].message))
  {
    match s.calls[c].stage
    case Claiming => ClaimRows(s, c, reply);
    case Attaching(w) => AttachRows(s, c, w, reply);
    case Marking(w) => MarkRows(s, c, w, reply);
    case Completing(_) => CompleteRows(s, c, reply);
    case Aborting(d, u) => AbortRows(s, c, d, u, reply);
    case _ => assert AdvanceCall(s, c, reply).rows == s.rows;
  }

  lemma AdvanceConversations(s: System, c: Id, reply: Reply)
    requires c in s.calls
    ensures AdvanceCall(s, c, reply).conversations == s.conversations
  {
    var m := s.calls[c].message;
    match s.calls[c].stage
    case Claiming => assert AdvanceClaim(s, c, m, reply).conversations == s.conversations;
    case Attaching(w) => assert AdvanceAttach(s, c, m, w, reply).conversations == s.conversations;
    case Marking(w) => assert AdvanceMark(s, c, m, w, reply).conversations == s.conversations;
    case Completing(_) => assert AdvanceComplete(s, c, m, reply).conversations == s.conversations;
    case Aborting(d, u) => assert AdvanceAbort(s, c, m, d, u, reply).conversations == s.conversations;
    case _ =>
  }

  // The invariant of conversations

  /** Two messages in one conversation share their binding and are not both active. */
  predicate Compatible(a: Row, b: Row) {
    a.attached.Some? && b.attached.Some?
      && AttachedTo(a, b.attached.value.tenant, b.attached.value.store, b.attached.value.conversation) ==>
      a.attached.value.binding == b.attached.value.binding && !(Active(a) && Active(b))
  }

  ghost predicate PlacesOk(rows: Rows, conversations: map<Id, Owner>) {
    && (forall j, k :: j in rows && k in rows && j != k ==> Compatible(rows[j], rows[k]))
    && (forall k :: k in rows && rows[k].attached.Some? ==> InScope(conversations, rows[k].attached.value))
  }

  lemma NotBusy(rows: Rows, j: Key, row: Row)
    requires j in rows && row.attached.Some? && !Busy(rows, row.attached.value)
    ensures Compatible(rows[j], row) && Compatible(row, rows[j])
  {
    assert !Blocks(rows[j], row.attached.value);
  }

  lemma PlacesKept(before: Rows, after: Rows, conversations: map<Id, Owner>, k: Key)
    requires PlacesOk(before, conversations) && ChangedAt(before, after, conversations, k)
    ensures PlacesOk(after, conversations)
  {
    if after != before {
      forall j | j in after && j != k ensures Compatible(after[j], after[k]) && Compatible(after[k], after[j]) {
        if k in before && after[k].attached == before[k].attached {
          assert Compatible(before[j], before[k]) && Compatible(before[k], before[j]);
        } else if k in before {
          NotBusy(before, j, after[k]);
        }
      }
    }
  }

  // The invariant of effects

  predicate RightOwner(conversations: map<Id, Owner>, w: Work) {
    w.conversation in conversations
      && conversations[w.conversation] == Owner(w.identity.tenant, w.identity.store, w.customer)
  }

  ghost predicate EffectsOk(s: System) {
    forall i :: 0 <= i < |s.effects| && s.effects[i].Responded? ==> RightOwner(s.conversations, s.effects[i].work)
  }

  /** An effect that starts the agent follows an attachment to a conversation of the right owner that nobody blocks. */
  ghost predicate Permitted(s: System, e: Effect) {
    e.Responded? ==> RightOwner(s.conversations, e.work) && !Busy(s.rows, Place(e.work.identity, e.work.conversation))
  }

  ghost predicate Adds(s: System, t: System, more: seq<Effect>) {
    t.effects == s.effects + more && |more| <= 1 && (more != [] ==> Permitted(s, more[0]))
  }

  lemma AttachAdds(s: System, c: Id, w: Work, reply: Reply) returns (more: seq<Effect>)
    requires c in s.calls
    ensures Adds(s, AdvanceAttach(s, c, s.calls[c].message, w, reply), more)
  {
    var m := s.calls[c].message;
    var ok := Attach(s.rows, s.conversations, s.bindings, KeyOf(m), w.identity, w.conversation, w.customer).1;
    more := if reply.Done? && ok then [Responded(KeyOf(m), w)] else [];
    assert s.effects + [] == s.effects;
  }

  lemma MarkAdds(s: System, c: Id, w: Work, reply: Reply) returns (more: seq<Effect>)
    requires c in s.calls
    ensures Adds(s, AdvanceMark(s, c, s.calls[c].message, w, reply), more)
  {
    var m := s.calls[c].message;
    more := if reply.Done? && MarkUncertain(s.rows, KeyOf(m)).1 then [SendCalled(KeyOf(m))] else [];
    assert s.effects + [] == s.effects;
  }

  lemma AdvanceAdds(s: System, c: Id, reply: Reply) returns (more: seq<Effect>)
    requires c in s.calls
    ensures Adds(s, AdvanceCall(s, c, reply), more)
  {
    var m := s.calls[c].message;
    assert s.effects + [] == s.effects;
    more := [];
    if !(reply.Resolved? && !Resolves(s.bindings, m, reply.identity)) {
      match s.calls[c].stage
      case Claiming => assert AdvanceClaim(s, c, m, reply).effects == s.effects;
      case Attaching(w) => more := AttachAdds(s, c, w, reply);
      case Marking(w) => more := MarkAdds(s, c, w, reply);
      case Sending(w) => more := if reply.Done? then [SendReturned(KeyOf(m))] else [];
      case Completing(_) => assert AdvanceComplete(s, c, m, reply).effects == s.effects;
      case Aborting(d, u) => assert AdvanceAbort(s, c, m, d, u, reply).effects == s.effects;
      case _ => assert AdvanceCall(s, c, reply).effects == s.effects;
    }
  }

  lemma StepAdds(s: System, step: Step) returns (more: seq<Effect>)
    ensures Adds(s, Apply(s, step), more)
  {
    if step.Advance? && step.call in s.calls {
      more := AdvanceAdds(s, step.call, step.reply);
    } else {
      more := [];
      assert Apply(s, step).effects == s.effects + [];
    }
  }

  lemma EffectsKept(s: System, t: System, more: seq<Effect>)
    requires EffectsOk(s) && Adds(s, t, more)
    requires forall v :: v in s.conversations ==> v in t.conversations && t.conversations[v] == s.conversations[v]
    ensures EffectsOk(t)
  {
    forall i | 0 <= i < |t.effects| && t.effects[i].Responded? ensures RightOwner(t.conversations, t.effects[i].work) {
      if i < |s.effects| {
        assert t.effects[i] == s.effects[i];
        assert RightOwner(s.conversations, s.effects[i].work);
      }
    }
  }

  // Every run

  ghost predicate Invariant(s: System) { MessagesOk(s) && PlacesOk(s.rows, s.conversations) && EffectsOk(s) }

  lemma StepKeeps(s: System, step: Step)
    requires Invariant(s)
    ensures Invariant(Apply(s, step))
  {
    MessagesKept(s, step);
    var k := StepRows(s, step);
    var more := StepAdds(s, step);
    EffectsKept(s, Apply(s, step), more);
    PlacesKept(s.rows, Apply(s, step).rows, s.conversations, k);
  }

  lemma {:induction false} RunKeeps(s: System, steps: seq<Step>)
    requires Invariant(s)
    ensures Invariant(Run(s, steps))
  {
    if steps != [] {
      RunKeeps(s, steps[..|steps| - 1]);
      StepKeeps(Run(s, steps[..|steps| - 1]), steps[|steps| - 1]);
    }
  }

  lemma Reachable(steps: seq<Step>)
    ensures Invariant(Run(Init, steps))
  {
    RunKeeps(Init, steps);
  }

  /** Whatever is delivered, replayed, interleaved, lost or crashed: a message starts the agent at most once, sends at
  most once, and sends only after it started the agent. */
  lemma AtMostOnce(steps: seq<Step>, k: Key)
    ensures var t := TallyOf(Run(Init, steps).effects, k); t.returned <= t.called <= t.responded <= 1
  {
    Reachable(steps);
    var s := Run(Init, steps);
    assert MessageOk(s.rows, s.calls, s.effects, k);
  }

  /** The stored delivery never overstates or understates: not_sent means send was never called, sent means it returned
  normally, and a failed message never started the agent. */
  lemma WriteAheadHonesty(steps: seq<Step>, k: Key)
    requires k in Run(Init, steps).rows
    ensures var s := Run(Init, steps);
            var row, t := s.rows[k], TallyOf(s.effects, k);
            && (row.delivery.NotSent? ==> t.called == 0)
            && (row.delivery.Sent? ==> t.returned == 1)
            && (row.state.Completed? <==> row.delivery.Sent?)
            && (row.state.Failed? ==> t.responded == 0)
            && (t.responded == 1 && !row.state.Processing? ==> row.state.Completed? || row.state.Indeterminate?)
  {
    Reachable(steps);
    var s := Run(Init, steps);
    assert MessageOk(s.rows, s.calls, s.effects, k);
  }

  /** In every reachable state at most one message of a conversation is processing or indeterminate, and all its
  messages share one binding, so creating a booking there never meets the conflict over several bindings. */
  lemma ConversationsAreExclusive(steps: seq<Step>, j: Key, k: Key)
    requires var rows := Run(Init, steps).rows;
             && j in rows && k in rows && j != k && rows[j].attached.Some? && rows[k].attached.Some?
             && rows[j].attached.value.conversation == rows[k].attached.value.conversation
    ensures var rows := Run(Init, steps).rows;
            && rows[j].attached == rows[k].attached
            && !(Active(rows[j]) && Active(rows[k]))
  {
    Reachable(steps);
    var s := Run(Init, steps);
    assert InScope(s.conversations, s.rows[j].attached.value) && InScope(s.conversations, s.rows[k].attached.value);
    assert Compatible(s.rows[j], s.rows[k]);
  }

  predicate Dispatching(stage: Stage) {
    stage.Responding? || stage.Verifying? || stage.Marking? || stage.Sending? || stage.Completing?
  }

  /** Two calls never have an agent or a send under way in the same conversation. */
  lemma DispatchIsExclusive(steps: seq<Step>, c: Id, d: Id)
    requires var calls := Run(Init, steps).calls;
             && c in calls && d in calls && Dispatching(calls[c].stage) && Dispatching(calls[d].stage)
             && calls[c].stage.work.conversation == calls[d].stage.work.conversation
    ensures c == d
  {
    Reachable(steps);
    var s := Run(Init, steps);
    var j, k := KeyOf(s.calls[c].message), KeyOf(s.calls[d].message);
    OwnerFacts(s, c, j);
    OwnerFacts(s, d, k);
    assert MessageOk(s.rows, s.calls, s.effects, j);
    if j != k {
      assert Works(s.calls, c, j) && Works(s.calls, d, k);
      ConversationsAreExclusive(steps, j, k);
    } else {
      assert Works(s.calls, c, j) && Works(s.calls, d, j);
    }
  }

  /** The agent only ever answered in a conversation of the identity's own tenant and store, for that conversation's
  customer. */
  lemma AnsweredInScope(steps: seq<Step>, i: nat)
    requires i < |Run(Init, steps).effects| && Run(Init, steps).effects[i].Responded?
    ensures RightOwner(Run(Init, steps).conversations, Run(Init, steps).effects[i].work)
  {
    Reachable(steps);
  }

  /** A completed, failed or indeterminate message never changes again. */
  lemma {:induction false} TerminalRowsStay(s: System, steps: seq<Step>, k: Key)
    requires k in s.rows && !s.rows[k].state.Processing?
    ensures k in Run(s, steps).rows && Run(s, steps).rows[k] == s.rows[k]
  {
    if steps != [] {
      var before := Run(s, steps[..|steps| - 1]);
      TerminalRowsStay(s, steps[..|steps| - 1], k);
      var j := StepRows(before, steps[|steps| - 1]);
    }
  }

  /** How often the agent was started in a conversation. */
  function RespondedIn(effects: seq<Effect>, place: Attachment): nat {
    if effects == [] then 0
    else
      var e := effects[|effects| - 1];
      RespondedIn(effects[..|effects| - 1], place)
      + if e.Responded? && e.work.identity.tenant == place.tenant && e.work.identity.store == place.store
           && e.work.conversation == place.conversation then 1 else 0
  }

  lemma RespondedGrows(effects: seq<Effect>, more: seq<Effect>, place: Attachment)
    requires |more| <= 1
    ensures RespondedIn(effects + more, place) == RespondedIn(effects, place) + RespondedIn(more, place)
  {
    if more == [] {
      assert effects + more == effects;
    } else {
      assert (effects + more)[..|effects|] == effects;
    }
  }

  /** A conversation with an active message is closed to the agent. */
  lemma BlockedStep(s: System, step: Step, k: Key)
    requires k in s.rows && s.rows[k].attached.Some? && Active(s.rows[k])
    ensures RespondedIn(Apply(s, step).effects, s.rows[k].attached.value)
      == RespondedIn(s.effects, s.rows[k].attached.value)
  {
    var place := s.rows[k].attached.value;
    var more := StepAdds(s, step);
    RespondedGrows(s.effects, more, place);
    if more != [] && more[0].Responded? { ElsewhereOnly(s, k, more[0]); }
    assert more != [] ==> more == [more[0]] && more[..0] == [];
  }

  lemma ElsewhereOnly(s: System, k: Key, e: Effect)
    requires k in s.rows && s.rows[k].attached.Some? && Active(s.rows[k]) && e.Responded? && Permitted(s, e)
    ensures !AttachedTo(s.rows[k], e.work.identity.tenant, e.work.identity.store, e.work.conversation)
  {
    assert !Blocks(s.rows[k], Place(e.work.identity, e.work.conversation));
  }

  /** Once a message of a conversation is indeterminate, the agent is never started there again: a lost acknowledgement
  is not an excuse to replay. */
  lemma {:induction false} IndeterminateBlocksForever(s: System, steps: seq<Step>, k: Key)
    requires k in s.rows && s.rows[k].attached.Some? && s.rows[k].state.Indeterminate?
    ensures RespondedIn(Run(s, steps).effects, s.rows[k].attached.value)
      == RespondedIn(s.effects, s.rows[k].attached.value)
  {
    if steps != [] {
      var init := steps[..|steps| - 1];
      IndeterminateBlocksForever(s, init, k);
      TerminalRowsStay(s, init, k);
      BlockedStep(Run(s, init), steps[|steps| - 1], k);
    }
  }
}
