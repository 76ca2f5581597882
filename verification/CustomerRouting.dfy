/** The customer message loop as a transition system: any number of callbacks routing messages over one table, each
statement and each external call one step with an arbitrary answer, and a crash possible between any two steps
(src/enterprise/http-api.ts, routeWeComCustomerTexts). */
module CustomerRouting {
  import opened Wrappers
  import opened StoreOps
  import opened WeComCustomer

  /** What the loop does next with a message. MarkingFailed is inside the routing try block, Failing and Doubting
  swallow their own errors. */
  datatype Stage =
    | Claiming
    | Resolving
    | Attaching(route: Route)
    | MarkingFailed
    | Failing
    | Responding(route: Route)
    | Sending(route: Route)
    | Completing(route: Route)
    | Doubting

  datatype Call = Call(message: Message, stage: Stage)

  /** How a send ended, and whether the customer got the text. */
  datatype End = End(wire: Wire, delivered: bool)

  /** The agent was started; sendTextMessage was called; it returned or threw. */
  datatype Effect = Responded(key: Key, route: Route, message: Message) | SendCalled(key: Key)
    | SendEnded(key: Key, end: End)

  datatype System = System(rows: Rows, directory: Directory, channels: Channels, calls: map<Id, Call>,
    effects: seq<Effect>)

  const Init := System(map[], Directory(map[], map[]), map[], map[], [])

  /** Lost is a failed statement or call, or a committed one whose acknowledgement never arrived. */
  datatype Reply = Done | Lost(committed: bool) | Fresh(customer: Id, conversation: Id, lost: bool) | Answered(end: End)

  datatype Step =
    | Receive(call: Id, message: Message)
    | Advance(call: Id, reply: Reply)
    | Crash(call: Id)
    | Reconfigure(channels: Channels)

  function Without(calls: map<Id, Call>, c: Id): map<Id, Call> { map k | k in calls && k != c :: calls[k] }

  function Moved(s: System, c: Id, stage: Stage, rows: Rows, effects: seq<Effect>): System
    requires c in s.calls
  {
    s.(rows := rows, calls := s.calls[c := s.calls[c].(stage := stage)], effects := s.effects + effects)
  }

  function Over(s: System, c: Id, rows: Rows): System { s.(rows := rows, calls := Without(s.calls, c)) }

  /** The rows a statement leaves behind, given the answer its caller saw. */
  function Left(s: System, rows: Rows, reply: Reply): Rows { if reply == Lost(false) then s.rows else rows }

  function AdvanceClaim(s: System, c: Id, m: Message, reply: Reply): System
    requires c in s.calls
  {
    var (rows, status) := Claim(s.rows, m);
    if reply.Done? && status.Claimed? then Moved(s, c, Resolving, rows, [])
    else if reply.Done? || reply.Lost? then Over(s, c, Left(s, rows, reply))
    else s
  }

  function AdvanceResolve(s: System, c: Id, m: Message, reply: Reply): System
    requires c in s.calls
  {
    if reply.Fresh? then
      if reply.conversation in s.directory.conversations then s
      else
        var (directory, route) := ResolveRoute(s.directory, s.channels, m, reply.customer, reply.conversation);
        Moved(s, c, if reply.lost then Failing else if route.Some? then Attaching(route.value) else MarkingFailed,
          s.rows, []).(directory := directory)
    else if reply.Lost? then Moved(s, c, Failing, s.rows, [])
    else s
  }

  function AdvanceAttach(s: System, c: Id, m: Message, route: Route, reply: Reply): System
    requires c in s.calls
  {
    var (rows, ok) := AttachRoute(s.rows, KeyOf(m), route);
    if reply.Done? then
      if ok then Moved(s, c, Responding(route), rows, [Responded(KeyOf(m), route, m)])
      else Moved(s, c, MarkingFailed, s.rows, [])
    else if reply.Lost? then Moved(s, c, Failing, Left(s, rows, reply), [])
    else s
  }

  function AdvanceMarking(s: System, c: Id, m: Message, reply: Reply): System
    requires c in s.calls
  {
    var rows := MarkFailed(s.rows, KeyOf(m)).0;
    if reply.Done? then Over(s, c, rows)
    else if reply.Lost? then Moved(s, c, Failing, Left(s, rows, reply), [])
    else s
  }

  function AdvanceFailing(s: System, c: Id, m: Message, reply: Reply): System
    requires c in s.calls
  {
    if reply.Done? || reply.Lost? then Over(s, c, Left(s, MarkFailed(s.rows, KeyOf(m)).0, reply)) else s
  }

  function AdvanceSend(s: System, c: Id, m: Message, route: Route, reply: Reply): System
    requires c in s.calls
  {
    if reply.Answered? && Consistent(reply.end.wire, reply.end.delivered) then
      var outcome := OutcomeOf(reply.end.wire);
      Moved(s, c, if outcome.Accepted? then Completing(route) else if outcome.Rejected? then Failing else Doubting,
            s.rows, [SendEnded(KeyOf(m), reply.end)])
    else s
  }

  function AdvanceComplete(s: System, c: Id, m: Message, reply: Reply): System
    requires c in s.calls
  {
    var (rows, ok) := Complete(s.rows, KeyOf(m));
    if reply.Done? && ok then Over(s, c, rows)
    else if reply.Done? || reply.Lost? then Moved(s, c, Doubting, Left(s, rows, reply), [])
    else s
  }

  function AdvanceDoubting(s: System, c: Id, m: Message, reply: Reply): System
    requires c in s.calls
  {
    if reply.Done? || reply.Lost? then Over(s, c, Left(s, MarkIndeterminate(s.rows, KeyOf(m)).0, reply)) else s
  }

  function AdvanceCall(s: System, c: Id, reply: Reply): System
    requires c in s.calls
  {
    var m := s.calls[c].message;
    match s.calls[c].stage
    case Claiming => AdvanceClaim(s, c, m, reply)
    case Resolving => AdvanceResolve(s, c, m, reply)
    case Attaching(route) => AdvanceAttach(s, c, m, route, reply)
    case MarkingFailed => AdvanceMarking(s, c, m, reply)
    case Failing => AdvanceFailing(s, c, m, reply)
    case Responding(route) =>
      if reply.Done? then Moved(s, c, Sending(route), s.rows, [SendCalled(KeyOf(m))])
      else if reply.Lost? then Moved(s, c, Failing, s.rows, [])
      else s
    case Sending(route) => AdvanceSend(s, c, m, route, reply)
    case Completing(_) => AdvanceComplete(s, c, m, reply)
    case Doubting => AdvanceDoubting(s, c, m, reply)
  }

  /** One step; a step that is not enabled, or that reuses an identifier meant to be fresh, changes nothing. */
  function Apply(s: System, step: Step): System {
    match step
    case Receive(c, m) => if c in s.calls then s else s.(calls := s.calls[c := Call(m, Claiming)])
    case Advance(c, reply) => if c in s.calls then AdvanceCall(s, c, reply) else s
    case Crash(c) => s.(calls := Without(s.calls, c))
    case Reconfigure(channels) => s.(channels := channels)
  }

  function Run(s: System, steps: seq<Step>): System {
    if steps == [] then s else Apply(Run(s, steps[..|steps| - 1]), steps[|steps| - 1])
  }

  // What is counted

  datatype Tally = Tally(responded: nat, called: nat, ended: seq<End>)

  function Counted(t: Tally, e: Effect, k: Key): Tally {
    if e.key != k then t
    else match e
         case Responded(_, _, _) => t.(responded := t.responded + 1)
         case SendCalled(_) => t.(called := t.called + 1)
         case SendEnded(_, end) => t.(ended := t.ended + [end])
  }

  function CountedAll(t: Tally, more: seq<Effect>, k: Key): Tally
    requires |more| <= 1
  {
    if more == [] then t else Counted(t, more[0], k)
  }

  function TallyOf(effects: seq<Effect>, k: Key): Tally {
    if effects == [] then Tally(0, 0, []) else Counted(TallyOf(effects[..|effects| - 1], k), effects[|effects| - 1], k)
  }

  lemma TallyGrows(effects: seq<Effect>, more: seq<Effect>, k: Key)
    requires |more| <= 1
    ensures TallyOf(effects + more, k) == CountedAll(TallyOf(effects, k), more, k)
  {
    if more == [] {
      assert effects + more == effects;
    } else {
      assert (effects + more)[..|effects|] == effects;
    }
  }

  // The invariant of one message

  predicate EndedAs(t: Tally, outcome: SendOutcome) { |t.ended| == 1 && OutcomeOf(t.ended[0].wire) == outcome }

  predicate Nothing(t: Tally) { t.responded == 0 && t.called == 0 && t.ended == [] }

  /** What holds of a message whoever works on it. */
  predicate Settled(row: Row, t: Tally) {
    && |t.ended| <= t.called <= t.responded <= 1
    && (forall i :: 0 <= i < |t.ended| ==> Consistent(t.ended[i].wire, t.ended[i].delivered))
    && (row.route.None? ==> Nothing(t))
    && (row.state.Processing? ==> row.route.None?)
    && (row.state.Completed? ==> EndedAs(t, Accepted))
    && (row.state.Indeterminate? ==> EndedAs(t, Accepted) || EndedAs(t, Unknown))
    && (row.state.Failed? ==> t.called == 0 || EndedAs(t, Rejected))
  }

  predicate Open(row: Row) { row.state.Processing? || row.state.Routed? }

  /** What holds of a message while a call works on it. */
  predicate Owned(stage: Stage, row: Row, t: Tally) {
    match stage
    case Claiming => true
    case Resolving => row.state.Processing? && Nothing(t)
    case Attaching(_) => row.state.Processing? && Nothing(t)
    case MarkingFailed => row.state.Processing? && Nothing(t)
    case Failing => (Open(row) || row.state.Failed?) && (t.called == 0 || EndedAs(t, Rejected))
    case Responding(r) => row.state.Routed? && row.route == Some(r) && t == Tally(1, 0, [])
    case Sending(r) => row.state.Routed? && row.route == Some(r) && t == Tally(1, 1, [])
    case Completing(r) => row.state.Routed? && row.route == Some(r) && t.called == 1 && EndedAs(t, Accepted)
    case Doubting =>
      (row.state.Routed? || row.state.Completed?) && t.called == 1
      && (EndedAs(t, Accepted) || EndedAs(t, Unknown))
  }

  predicate Works(calls: map<Id, Call>, c: Id, k: Key) {
    c in calls && !calls[c].stage.Claiming? && KeyOf(calls[c].message) == k
  }

  ghost predicate MessageOk(rows: Rows, calls: map<Id, Call>, effects: seq<Effect>, k: Key) {
    && (k in rows ==> Settled(rows[k], TallyOf(effects, k)))
    && (k !in rows ==> Nothing(TallyOf(effects, k)))
    && (forall c :: Works(calls, c, k)
         ==> k in rows && Owned(calls[c].stage, rows[k], TallyOf(effects, k)) && rows[k].payload == calls[c].message)
    && (forall c, d :: Works(calls, c, k) && Works(calls, d, k) ==> c == d)
  }

  ghost predicate MessagesOk(s: System) { forall k :: MessageOk(s.rows, s.calls, s.effects, k) }

  ghost predicate OnlyCall(before: map<Id, Call>, after: map<Id, Call>, c: Id) {
    forall d :: d != c ==> (d in after <==> d in before) && (d in after ==> after[d] == before[d])
  }

  lemma OthersKept(s: System, k: Key, c: Id, rows: Rows, calls: map<Id, Call>, more: seq<Effect>, j: Key)
    requires MessageOk(s.rows, s.calls, s.effects, j) && j != k
    requires (j in rows <==> j in s.rows) && (j in rows ==> rows[j] == s.rows[j])
    requires OnlyCall(s.calls, calls, c) && (c in calls ==> KeyOf(calls[c].message) == k)
    requires |more| <= 1 && (more != [] ==> more[0].key == k)
    ensures MessageOk(rows, calls, s.effects + more, j)
  {
    TallyGrows(s.effects, more, j);
    forall d | Works(calls, d, j) ensures Works(s.calls, d, j) {
    }
  }

  ghost predicate Changes(before: Rows, after: Rows, k: Key) {
    forall j :: j != k ==> (j in after <==> j in before) && (j in after ==> after[j] == before[j])
  }

  lemma Kept(s: System, k: Key, c: Id, rows: Rows, calls: map<Id, Call>, more: seq<Effect>)
    requires MessagesOk(s) && Changes(s.rows, rows, k) && OnlyCall(s.calls, calls, c)
    requires c in calls ==> KeyOf(calls[c].message) == k
    requires |more| <= 1 && (more != [] ==> more[0].key == k)
    requires MessageOk(rows, calls, s.effects + more, k)
    ensures forall j :: MessageOk(rows, calls, s.effects + more, j)
  {
    forall j ensures MessageOk(rows, calls, s.effects + more, j) {
      if j != k {
        assert MessageOk(s.rows, s.calls, s.effects, j);
        OthersKept(s, k, c, rows, calls, more, j);
      }
    }
  }

  function Next(s: System, k: Key, c: Id, stage: Option<Stage>, row: Row, more: seq<Effect>): System
    requires c in s.calls
  {
    s.(rows := s.rows[k := row],
       calls := if stage.Some? then s.calls[c := s.calls[c].(stage := stage.value)] else Without(s.calls, c),
       effects := s.effects + more)
  }

  /** One step of the owner of a message. */
  lemma OwnerStep(s: System, k: Key, c: Id, stage: Option<Stage>, row: Row, more: seq<Effect>)
    requires MessagesOk(s) && Works(s.calls, c, k) && k in s.rows && row.payload == s.rows[k].payload
    requires |more| <= 1 && (more != [] ==> more[0].key == k) && (stage.Some? ==> !stage.value.Claiming?)
    requires var t := CountedAll(TallyOf(s.effects, k), more, k);
             Settled(row, t) && (stage.Some? ==> Owned(stage.value, row, t))
    ensures MessagesOk(Next(s, k, c, stage, row, more))
  {
    var n := Next(s, k, c, stage, row, more);
    assert MessageOk(s.rows, s.calls, s.effects, k);
    TallyGrows(s.effects, more, k);
    forall d | Works(n.calls, d, k) ensures d == c && stage.Some? {
      assert Works(s.calls, d, k);
    }
    Kept(s, k, c, n.rows, n.calls, more);
  }

  lemma OwnerFacts(s: System, c: Id, k: Key)
    requires MessagesOk(s) && Works(s.calls, c, k)
    ensures k in s.rows && Owned(s.calls[c].stage, s.rows[k], TallyOf(s.effects, k))
      && Settled(s.rows[k], TallyOf(s.effects, k))
    ensures s.rows[k].payload == s.calls[c].message
  {
    assert MessageOk(s.rows, s.calls, s.effects, k);
  }

  lemma OwnerActs(s: System, k: Key, c: Id, stage: Stage, row: Row, more: seq<Effect>)
    requires MessagesOk(s) && Works(s.calls, c, k) && k in s.rows && row.payload == s.rows[k].payload
    requires |more| <= 1 && (more != [] ==> more[0].key == k) && !stage.Claiming?
    requires var t := CountedAll(TallyOf(s.effects, k), more, k); Settled(row, t) && Owned(stage, row, t)
    ensures MessagesOk(Moved(s, c, stage, s.rows[k := row], more))
  {
    OwnerStep(s, k, c, Some(stage), row, more);
  }

  lemma OwnerWalks(s: System, k: Key, c: Id, stage: Stage)
    requires MessagesOk(s) && Works(s.calls, c, k) && !stage.Claiming?
    requires k in s.rows ==> Owned(stage, s.rows[k], TallyOf(s.effects, k))
    ensures MessagesOk(Moved(s, c, stage, s.rows, []))
  {
    OwnerFacts(s, c, k);
    OwnerStep(s, k, c, Some(stage), s.rows[k], []);
    assert s.rows[k := s.rows[k]] == s.rows;
  }

  lemma OwnerLeaves(s: System, k: Key, c: Id, row: Row)
    requires MessagesOk(s) && Works(s.calls, c, k) && k in s.rows && row.payload == s.rows[k].payload
    requires Settled(row, TallyOf(s.effects, k))
    ensures MessagesOk(Over(s, c, s.rows[k := row])) && MessagesOk(Over(s, c, s.rows))
  {
    OwnerFacts(s, c, k);
    OwnerStep(s, k, c, None, row, []);
    OwnerStep(s, k, c, None, s.rows[k], []);
    assert s.effects + [] == s.effects && s.rows[k := s.rows[k]] == s.rows;
  }

  /** A call that owns nothing appears, leaves or crashes. */
  lemma BystanderKept(s: System, c: Id, calls: map<Id, Call>)
    requires MessagesOk(s) && OnlyCall(s.calls, calls, c)
    requires c in calls ==> calls[c].stage.Claiming?
    ensures MessagesOk(s.(calls := calls))
  {
    forall k ensures MessageOk(s.rows, calls, s.effects, k) {
      assert MessageOk(s.rows, s.calls, s.effects, k);
      forall d | Works(calls, d, k) ensures Works(s.calls, d, k) && calls[d] == s.calls[d] {
      }
    }
  }

  lemma ClaimedKept(s: System, c: Id, stays: bool)
    requires MessagesOk(s) && c in s.calls && s.calls[c].stage.Claiming? && KeyOf(s.calls[c].message) !in s.rows
    ensures var m := s.calls[c].message;
            var rows := s.rows[KeyOf(m) := Row(m, Processing, None)];
            MessagesOk(if stays then Moved(s, c, Resolving, rows, []) else Over(s, c, rows))
  {
    var m := s.calls[c].message;
    var k := KeyOf(m);
    var rows := s.rows[k := Row(m, Processing, None)];
    var calls := if stays then s.calls[c := s.calls[c].(stage := Resolving)] else Without(s.calls, c);
    assert MessageOk(s.rows, s.calls, s.effects, k);
    forall d | Works(calls, d, k) ensures d == c && stays {
      assert d != c ==> Works(s.calls, d, k);
    }
    assert s.effects + [] == s.effects;
    Kept(s, k, c, rows, calls, []);
  }

  lemma ClaimKeeps(s: System, c: Id, reply: Reply)
    requires MessagesOk(s) && c in s.calls && s.calls[c].stage.Claiming?
    ensures MessagesOk(AdvanceClaim(s, c, s.calls[c].message, reply))
  {
    BystanderKept(s, c, Without(s.calls, c));
    if KeyOf(s.calls[c].message) !in s.rows {
      ClaimedKept(s, c, true);
      ClaimedKept(s, c, false);
    }
  }

  lemma ResolveKeeps(s: System, c: Id, reply: Reply)
    requires MessagesOk(s) && c in s.calls && s.calls[c].stage.Resolving?
    ensures MessagesOk(AdvanceResolve(s, c, s.calls[c].message, reply))
  {
    var k := KeyOf(s.calls[c].message);
    OwnerFacts(s, c, k);
    OwnerWalks(s, k, c, Failing);
    OwnerWalks(s, k, c, MarkingFailed);
    if reply.Fresh? {
      var route := ResolveRoute(s.directory, s.channels, s.calls[c].message, reply.customer, reply.conversation).1;
      if route.Some? { OwnerWalks(s, k, c, Attaching(route.value)); }
    }
  }

  lemma AttachKeeps(s: System, c: Id, r: Route, reply: Reply)
    requires MessagesOk(s) && c in s.calls && s.calls[c].stage == Attaching(r)
    ensures MessagesOk(AdvanceAttach(s, c, s.calls[c].message, r, reply))
  {
    var k := KeyOf(s.calls[c].message);
    OwnerFacts(s, c, k);
    var row := s.rows[k].(state := Routed, route := Some(r));
    OwnerWalks(s, k, c, Failing);
    OwnerActs(s, k, c, Failing, row, []);
    OwnerActs(s, k, c, Responding(r), row, [Responded(k, r, s.calls[c].message)]);
  }

  lemma FailKeeps(s: System, c: Id, reply: Reply)
    requires MessagesOk(s) && c in s.calls && (s.calls[c].stage.MarkingFailed? || s.calls[c].stage.Failing?)
    ensures MessagesOk(AdvanceCall(s, c, reply))
  {
    var k := KeyOf(s.calls[c].message);
    OwnerFacts(s, c, k);
    var row := s.rows[k].(state := Failed);
    OwnerLeaves(s, k, c, row);
    OwnerWalks(s, k, c, Failing);
    OwnerActs(s, k, c, Failing, row, []);
  }

  lemma RespondKeeps(s: System, c: Id, r: Route, reply: Reply)
    requires MessagesOk(s) && c in s.calls && s.calls[c].stage == Responding(r)
    ensures MessagesOk(AdvanceCall(s, c, reply))
  {
    var k := KeyOf(s.calls[c].message);
    OwnerFacts(s, c, k);
    OwnerWalks(s, k, c, Failing);
    OwnerActs(s, k, c, Sending(r), s.rows[k], [SendCalled(k)]);
    assert s.rows[k := s.rows[k]] == s.rows;
  }

  lemma SendKeeps(s: System, c: Id, r: Route, reply: Reply)
    requires MessagesOk(s) && c in s.calls && s.calls[c].stage == Sending(r)
    ensures MessagesOk(AdvanceSend(s, c, s.calls[c].message, r, reply))
  {
    var k := KeyOf(s.calls[c].message);
    OwnerFacts(s, c, k);
    if reply.Answered? && Consistent(reply.end.wire, reply.end.delivered) {
      var outcome := OutcomeOf(reply.end.wire);
      var stage := if outcome.Accepted? then Completing(r) else if outcome.Rejected? then Failing else Doubting;
      OwnerActs(s, k, c, stage, s.rows[k], [SendEnded(k, reply.end)]);
      assert s.rows[k := s.rows[k]] == s.rows;
    }
  }

  lemma CompleteKeeps(s: System, c: Id, r: Route, reply: Reply)
    requires MessagesOk(s) && c in s.calls && s.calls[c].stage == Completing(r)
    ensures MessagesOk(AdvanceComplete(s, c, s.calls[c].message, reply))
  {
    var k := KeyOf(s.calls[c].message);
    OwnerFacts(s, c, k);
    var row := s.rows[k].(state := Completed);
    OwnerLeaves(s, k, c, row);
    OwnerWalks(s, k, c, Doubting);
    OwnerActs(s, k, c, Doubting, row, []);
  }

  lemma DoubtKeeps(s: System, c: Id, reply: Reply)
    requires MessagesOk(s) && c in s.calls && s.calls[c].stage.Doubting?
    ensures MessagesOk(AdvanceDoubting(s, c, s.calls[c].message, reply))
  {
    var k := KeyOf(s.calls[c].message);
    OwnerFacts(s, c, k);
    OwnerLeaves(s, k, c, s.rows[k].(state := Indeterminate));
  }

  lemma AdvanceKeeps(s: System, c: Id, reply: Reply)
    requires MessagesOk(s) && c in s.calls
    ensures MessagesOk(AdvanceCall(s, c, reply))
  {
    match s.calls[c].stage
    case Claiming => ClaimKeeps(s, c, reply);
    case Resolving => ResolveKeeps(s, c, reply);
    case Attaching(r) => AttachKeeps(s, c, r, reply);
    case MarkingFailed => FailKeeps(s, c, reply);
    case Failing => FailKeeps(s, c, reply);
    case Responding(r) => RespondKeeps(s, c, r, reply);
    case Sending(r) => SendKeeps(s, c, r, reply);
    case Completing(r) => CompleteKeeps(s, c, r, reply);
    case Doubting => DoubtKeeps(s, c, reply);
  }

  lemma MessagesKept(s: System, step: Step)
    requires MessagesOk(s)
    ensures MessagesOk(Apply(s, step))
  {
    match step
    case Receive(c, m) => if c !in s.calls { BystanderKept(s, c, s.calls[c := Call(m, Claiming)]); }
    case Advance(c, reply) => if c in s.calls { AdvanceKeeps(s, c, reply); }
    case Crash(c) => BystanderKept(s, c, Without(s.calls, c));
    case Reconfigure(channels) => assert Apply(s, step).rows == s.rows && Apply(s, step).calls == s.calls;
  }

  // The invariant of routes

  /** The directory pairs contacts and conversations one to one. */
  ghost predicate Paired(d: Directory) {
    && (forall contact :: contact in d.bindings ==>
          d.bindings[contact].conversation in d.conversations
            && d.conversations[d.bindings[contact].conversation] == contact)
    && (forall v :: v in d.conversations
         ==> d.conversations[v] in d.bindings && d.bindings[d.conversations[v]].conversation == v)
  }

  /** The route is the one of the message's contact. */
  predicate RouteFor(d: Directory, r: Route, m: Message) {
    (r.channel, m.externalUser) in d.bindings
      && d.bindings[(r.channel, m.externalUser)] == CustomerBinding(r.customer, r.conversation)
  }

  predicate StageRouted(d: Directory, call: Call) {
    match call.stage
    case Attaching(r) => RouteFor(d, r, call.message)
    case Responding(r) => RouteFor(d, r, call.message)
    case Sending(r) => RouteFor(d, r, call.message)
    case Completing(r) => RouteFor(d, r, call.message)
    case _ => true
  }

  predicate EffectRouted(d: Directory, e: Effect) { e.Responded? ==> RouteFor(d, e.route, e.message) }

  ghost predicate RoutesOk(s: System) {
    && Paired(s.directory)
    && (forall c :: c in s.calls ==> StageRouted(s.directory, s.calls[c]))
    && (forall i :: 0 <= i < |s.effects| ==> EffectRouted(s.directory, s.effects[i]))
  }

  /** Contacts are only added. */
  ghost predicate Grows(before: Directory, after: Directory) {
    forall contact :: contact in before.bindings
      ==> contact in after.bindings && after.bindings[contact] == before.bindings[contact]
  }

  lemma ResolveGrows(d: Directory, channels: Channels, m: Message, customer: Id, conversation: Id)
    requires Paired(d) && conversation !in d.conversations
    ensures var (after, route) := ResolveRoute(d, channels, m, customer, conversation);
            Paired(after) && Grows(d, after) && (route.Some? ==> RouteFor(after, route.value, m))
  {
  }

  lemma DirectoryGrows(s: System, step: Step)
    requires Paired(s.directory)
    ensures Paired(Apply(s, step).directory) && Grows(s.directory, Apply(s, step).directory)
  {
    if step.Advance? && step.call in s.calls && s.calls[step.call].stage.Resolving? && step.reply.Fresh?
       && step.reply.conversation !in s.directory.conversations {
      ResolveGrows(s.directory, s.channels, s.calls[step.call].message, step.reply.customer, step.reply.conversation);
    }
  }

  /** One step of call c: it ends up routed like its message, and so does the effect it adds. */
  ghost predicate RoutedStep(s: System, t: System, c: Id) {
    && OnlyCall(s.calls, t.calls, c)
    && (c in t.calls ==> (c in s.calls && t.calls[c] == s.calls[c]) || StageRouted(t.directory, t.calls[c]))
    && |s.effects| <= |t.effects| <= |s.effects| + 1 && t.effects[..|s.effects|] == s.effects
    && (|t.effects| > |s.effects| ==> EffectRouted(t.directory, t.effects[|s.effects|]))
  }

  /** The call moves within its route. */
  lemma MovedRouted(s: System, c: Id, stage: Stage, rows: Rows, more: seq<Effect>)
    requires c in s.calls && StageRouted(s.directory, s.calls[c].(stage := stage)) && |more| <= 1
    requires more != [] ==> EffectRouted(s.directory, more[0])
    ensures RoutedStep(s, Moved(s, c, stage, rows, more), c)
  {
    var t := Moved(s, c, stage, rows, more);
    assert t.effects[..|s.effects|] == s.effects;
  }

  lemma OverRouted(s: System, c: Id, rows: Rows)
    ensures RoutedStep(s, Over(s, c, rows), c)
  {
  }

  lemma ResolveRouted(s: System, c: Id, reply: Reply)
    requires RoutesOk(s) && c in s.calls && s.calls[c].stage.Resolving?
    ensures RoutedStep(s, AdvanceResolve(s, c, s.calls[c].message, reply), c)
  {
    var t := AdvanceResolve(s, c, s.calls[c].message, reply);
    assert t.effects == s.effects;
    if reply.Fresh? && reply.conversation !in s.directory.conversations {
      ResolveGrows(s.directory, s.channels, s.calls[c].message, reply.customer, reply.conversation);
    }
  }

  lemma AttachRouted(s: System, c: Id, r: Route, reply: Reply)
    requires RoutesOk(s) && c in s.calls && s.calls[c].stage == Attaching(r)
    ensures RoutedStep(s, AdvanceAttach(s, c, s.calls[c].message, r, reply), c)
  {
    var m := s.calls[c].message;
    assert StageRouted(s.directory, s.calls[c]);
    var rows := AttachRoute(s.rows, KeyOf(m), r).0;
    MovedRouted(s, c, Responding(r), rows, [Responded(KeyOf(m), r, m)]);
    MovedRouted(s, c, MarkingFailed, s.rows, []);
    MovedRouted(s, c, Failing, Left(s, rows, reply), []);
  }

  lemma RespondRouted(s: System, c: Id, r: Route, reply: Reply)
    requires RoutesOk(s) && c in s.calls && s.calls[c].stage == Responding(r)
    ensures RoutedStep(s, AdvanceCall(s, c, reply), c)
  {
    assert StageRouted(s.directory, s.calls[c]);
    MovedRouted(s, c, Sending(r), s.rows, [SendCalled(KeyOf(s.calls[c].message))]);
    MovedRouted(s, c, Failing, s.rows, []);
  }

  lemma SendRouted(s: System, c: Id, r: Route, reply: Reply)
    requires RoutesOk(s) && c in s.calls && s.calls[c].stage == Sending(r)
    ensures RoutedStep(s, AdvanceSend(s, c, s.calls[c].message, r, reply), c)
  {
    assert StageRouted(s.directory, s.calls[c]);
    if reply.Answered? {
      var more := [SendEnded(KeyOf(s.calls[c].message), reply.end)];
      MovedRouted(s, c, Completing(r), s.rows, more);
      MovedRouted(s, c, Failing, s.rows, more);
      MovedRouted(s, c, Doubting, s.rows, more);
    }
  }

  /** The stages that neither route nor send. */
  lemma PlainRouted(s: System, c: Id, reply: Reply)
    requires c in s.calls && !s.calls[c].stage.Resolving? && !s.calls[c].stage.Attaching?
      && !s.calls[c].stage.Responding? && !s.calls[c].stage.Sending?
    ensures RoutedStep(s, AdvanceCall(s, c, reply), c)
  {
    var k, m := KeyOf(s.calls[c].message), s.calls[c].message;
    match s.calls[c].stage
    case Claiming =>
      MovedRouted(s, c, Resolving, Claim(s.rows, m).0, []);
      OverRouted(s, c, Left(s, Claim(s.rows, m).0, reply));
    case MarkingFailed =>
      OverRouted(s, c, MarkFailed(s.rows, k).0);
      MovedRouted(s, c, Failing, Left(s, MarkFailed(s.rows, k).0, reply), []);
    case Failing => OverRouted(s, c, Left(s, MarkFailed(s.rows, k).0, reply));
    case Completing(_) =>
      OverRouted(s, c, Complete(s.rows, k).0);
      MovedRouted(s, c, Doubting, Left(s, Complete(s.rows, k).0, reply), []);
    case Doubting => OverRouted(s, c, Left(s, MarkIndeterminate(s.rows, k).0, reply));
    case _ =>
  }

  lemma AdvanceRouted(s: System, c: Id, reply: Reply)
    requires RoutesOk(s) && c in s.calls
    ensures RoutedStep(s, AdvanceCall(s, c, reply), c)
  {
    match s.calls[c].stage
    case Resolving => ResolveRouted(s, c, reply);
    case Attaching(r) => AttachRouted(s, c, r, reply);
    case Responding(r) => RespondRouted(s, c, r, reply);
    case Sending(r) => SendRouted(s, c, r, reply);
    case _ => PlainRouted(s, c, reply);
  }

  lemma StepRouted(s: System, step: Step) returns (c: Id)
    requires RoutesOk(s)
    ensures RoutedStep(s, Apply(s, step), c)
  {
    match step
    case Receive(d, _) => c := d;
    case Advance(d, reply) =>
      c := d;
      if d in s.calls { AdvanceRouted(s, d, reply); }
    case Crash(d) => c := d;
    case Reconfigure(_) => c := 0;
  }

  lemma StillRouted(before: Directory, after: Directory, call: Call)
    requires Grows(before, after) && StageRouted(before, call)
    ensures StageRouted(after, call)
  {
  }

  lemma RoutesFrom(s: System, t: System, c: Id)
    requires RoutesOk(s) && Paired(t.directory) && Grows(s.directory, t.directory) && RoutedStep(s, t, c)
    ensures RoutesOk(t)
  {
    forall d | d in t.calls ensures StageRouted(t.directory, t.calls[d]) {
      if d in s.calls && t.calls[d] == s.calls[d] { StillRouted(s.directory, t.directory, s.calls[d]); }
    }
    forall i | 0 <= i < |t.effects| ensures EffectRouted(t.directory, t.effects[i]) {
      if i < |s.effects| {
        assert t.effects[i] == t.effects[..|s.effects|][i];
        assert EffectRouted(s.directory, s.effects[i]);
      }
    }
  }

  lemma RoutesKept(s: System, step: Step)
    requires RoutesOk(s)
    ensures RoutesOk(Apply(s, step))
  {
    DirectoryGrows(s, step);
    var c := StepRouted(s, step);
    RoutesFrom(s, Apply(s, step), c);
  }

  // Every run

  ghost predicate Invariant(s: System) { MessagesOk(s) && RoutesOk(s) }

  lemma {:induction false} RunKeeps(s: System, steps: seq<Step>)
    requires Invariant(s)
    ensures Invariant(Run(s, steps))
  {
    if steps != [] {
      RunKeeps(s, steps[..|steps| - 1]);
      MessagesKept(Run(s, steps[..|steps| - 1]), steps[|steps| - 1]);
      RoutesKept(Run(s, steps[..|steps| - 1]), steps[|steps| - 1]);
    }
  }

  lemma Reachable(steps: seq<Step>)
    ensures Invariant(Run(Init, steps))
  {
    RunKeeps(Init, steps);
  }

  /** Over any number of concurrent callbacks and crashes, a message starts the agent at most once and sends at most
  once. */
  lemma AtMostOnce(steps: seq<Step>, k: Key)
    ensures var t := TallyOf(Run(Init, steps).effects, k); |t.ended| <= t.called <= t.responded <= 1
  {
    Reachable(steps);
    var s := Run(Init, steps);
    assert MessageOk(s.rows, s.calls, s.effects, k);
  }

  /** A completed message was taken by the platform, which echoed its id; a failed one was never sent or its send was
  counted as rejected; an indeterminate one was sent with an unclear answer, or taken without the completion being
  saved. */
  predicate Honest(row: Row, t: Tally) {
    && (row.state.Completed? ==> t.ended == [End(Taken(Echoed), true)])
    && (row.state.Failed? ==> t.called == 0 || EndedAs(t, Rejected))
    && (row.state.Indeterminate? ==> EndedAs(t, Unknown) || t.ended == [End(Taken(Echoed), true)])
  }

  lemma AcceptedIsEchoed(t: Tally)
    requires EndedAs(t, Accepted)
      && (forall i :: 0 <= i < |t.ended| ==> Consistent(t.ended[i].wire, t.ended[i].delivered))
    ensures t.ended == [End(Taken(Echoed), true)]
  {
    assert Consistent(t.ended[0].wire, t.ended[0].delivered);
    assert t.ended == [t.ended[0]];
  }

  lemma SettledIsHonest(row: Row, t: Tally)
    requires Settled(row, t)
    ensures Honest(row, t)
  {
    if EndedAs(t, Accepted) { AcceptedIsEchoed(t); }
  }

  lemma TerminalStatesAreHonest(steps: seq<Step>, k: Key)
    requires k in Run(Init, steps).rows
    ensures Honest(Run(Init, steps).rows[k], TallyOf(Run(Init, steps).effects, k))
  {
    Reachable(steps);
    var s := Run(Init, steps);
    assert MessageOk(s.rows, s.calls, s.effects, k);
    SettledIsHonest(s.rows[k], TallyOf(s.effects, k));
  }

  predicate ReachedCustomer(t: Tally) { exists i :: 0 <= i < |t.ended| && t.ended[i].delivered }

  lemma FailedDelivery(row: Row, t: Tally)
    requires Settled(row, t) && row.state.Failed?
    ensures ReachedCustomer(t) <==> t.ended == [End(Taken(Malformed), true)]
  {
    if t.ended != [] {
      assert Consistent(t.ended[0].wire, t.ended[0].delivered);
      assert t.ended == [t.ended[0]];
    }
  }

  /** A failed message reached the customer if and only if the platform took it and answered with a malformed message
  id. */
  lemma FailedButDelivered(steps: seq<Step>, k: Key)
    requires k in Run(Init, steps).rows && Run(Init, steps).rows[k].state.Failed?
    ensures var t := TallyOf(Run(Init, steps).effects, k);
            ReachedCustomer(t) <==> t.ended == [End(Taken(Malformed), true)]
  {
    Reachable(steps);
    var s := Run(Init, steps);
    assert MessageOk(s.rows, s.calls, s.effects, k);
    FailedDelivery(s.rows[k], TallyOf(s.effects, k));
  }

  /** A completed, failed or indeterminate message never changes again. */
  lemma {:induction false} TerminalRowsStay(s: System, steps: seq<Step>, k: Key)
    requires k in s.rows && !Open(s.rows[k])
    ensures k in Run(s, steps).rows && Run(s, steps).rows[k] == s.rows[k]
  {
    if steps != [] {
      TerminalRowsStay(s, steps[..|steps| - 1], k);
      TerminalStep(Run(s, steps[..|steps| - 1]), steps[|steps| - 1], k);
    }
  }

  lemma TerminalStep(s: System, step: Step, k: Key)
    requires k in s.rows && !Open(s.rows[k])
    ensures k in Apply(s, step).rows && Apply(s, step).rows[k] == s.rows[k]
  {
  }

  /** A contact keeps the conversation of its first message for good. */
  lemma {:induction false} ContactsKeepTheirConversation(s: System, steps: seq<Step>)
    requires Paired(s.directory)
    ensures Paired(Run(s, steps).directory) && Grows(s.directory, Run(s, steps).directory)
  {
    if steps != [] {
      var init := steps[..|steps| - 1];
      ContactsKeepTheirConversation(s, init);
      DirectoryGrows(Run(s, init), steps[|steps| - 1]);
    }
  }

  /** The agent answers two messages in the same conversation if and only if they come from the same customer over the
  same channel. */
  lemma OneConversationPerCustomer(steps: seq<Step>, i: nat, j: nat)
    requires var effects := Run(Init, steps).effects;
             i < |effects| && j < |effects| && effects[i].Responded? && effects[j].Responded?
    ensures var e, f := Run(Init, steps).effects[i], Run(Init, steps).effects[j];
            e.route.conversation == f.route.conversation <==>
              e.route.channel == f.route.channel && e.message.externalUser == f.message.externalUser
  {
    Reachable(steps);
    var s := Run(Init, steps);
    assert EffectRouted(s.directory, s.effects[i]) && EffectRouted(s.directory, s.effects[j]);
  }

  lemma RunStep(s: System, steps: seq<Step>, n: nat)
    requires n < |steps|
    ensures Run(s, steps[..n + 1]) == Apply(Run(s, steps[..n]), steps[n])
  {
    assert steps[..n + 1][..n] == steps[..n];
  }

  lemma ClaimedRun(m: Message, steps: seq<Step>)
    requires m == Message(1, 2, 3, 4, 5) && |steps| >= 3
    requires steps[..3] == [Reconfigure(map[(1, 2) := Channel(6, true)]), Receive(0, m), Advance(0, Done)]
    ensures Run(Init, steps[..3])
      == System(map[KeyOf(m) := Row(m, Processing, None)], Directory(map[], map[]), map[(1, 2) := Channel(6, true)],
                                            map[0 := Call(m, Resolving)], [])
  {
    assert steps[..0] == [];
    assert forall i :: 0 <= i < 3 ==> steps[i] == steps[..3][i];
    RunStep(Init, steps, 0);
    RunStep(Init, steps, 1);
    RunStep(Init, steps, 2);
  }

  lemma RoutedFirst(s: System, m: Message)
    requires m == Message(1, 2, 3, 4, 5)
    requires s == System(map[KeyOf(m) := Row(m, Processing, None)], Directory(map[], map[]),
      map[(1, 2) := Channel(6, true)],
                         map[0 := Call(m, Resolving)], [])
    ensures var t, r := Apply(Apply(s, Advance(0, Fresh(7, 8, false))), Advance(0, Done)), Route(6, 7, 8);
            t.rows == map[KeyOf(m) := Row(m, Routed, Some(r))] && t.calls == map[0 := Call(m, Responding(r))]
            && t.effects == [Responded(KeyOf(m), r, m)]
  {
    var attaching := Apply(s, Advance(0, Fresh(7, 8, false)));
    assert attaching.calls[0].stage == Attaching(Route(6, 7, 8));
  }

  /** The first message of a customer, up to the start of the agent. */
  lemma RoutedRun(m: Message, steps: seq<Step>)
    requires m == Message(1, 2, 3, 4, 5) && |steps| >= 5
    requires steps[..5]
      == [Reconfigure(map[(1, 2) := Channel(6, true)]), Receive(0, m), Advance(0, Done), Advance(0, Fresh(7, 8, false)),
        Advance(0, Done)]
    ensures var s, r := Run(Init, steps[..5]), Route(6, 7, 8);
            && s.rows == map[KeyOf(m) := Row(m, Routed, Some(r))]
            && s.calls == map[0 := Call(m, Responding(r))]
            && s.effects == [Responded(KeyOf(m), r, m)]
  {
    assert forall i :: 0 <= i < 5 ==> steps[i] == steps[..5][i];
    assert steps[..3] == steps[..5][..3];
    ClaimedRun(m, steps);
    RoutedFirst(Run(Init, steps[..3]), m);
    RunStep(Init, steps, 3);
    RunStep(Init, steps, 4);
  }

  /** A routed message whose answer the platform takes with a malformed id. */
  lemma MalformedEnd(s: System, m: Message, r: Route, e: End)
    requires s.calls == map[0 := Call(m, Responding(r))] && s.rows == map[KeyOf(m) := Row(m, Routed, Some(r))]
    requires e == End(Taken(Malformed), true)
    ensures var t := Apply(Apply(Apply(s, Advance(0, Done)), Advance(0, Answered(e))), Advance(0, Done));
            t.rows == map[KeyOf(m) := Row(m, Failed, Some(r))]
              && t.effects == s.effects + [SendCalled(KeyOf(m))] + [SendEnded(KeyOf(m), e)]
  {
    var sent := Apply(s, Advance(0, Done));
    assert sent.calls[0].stage == Sending(r);
    var ended := Apply(sent, Advance(0, Answered(e)));
    assert ended.calls[0].stage == Failing;
  }

  lemma EndedOnce(k: Key, r: Route, m: Message, e: End)
    requires k == KeyOf(m)
    ensures TallyOf([Responded(k, r, m)] + [SendCalled(k)] + [SendEnded(k, e)], k).ended == [e]
  {
    assert TallyOf([], k) == Tally(0, 0, []);
    TallyGrows([], [Responded(k, r, m)], k);
    assert [] + [Responded(k, r, m)] == [Responded(k, r, m)];
    TallyGrows([Responded(k, r, m)], [SendCalled(k)], k);
    TallyGrows([Responded(k, r, m)] + [SendCalled(k)], [SendEnded(k, e)], k);
  }

  /** Such a run: the platform takes the answer with a malformed id, and the message ends up failed. */
  lemma DeliveredYetFailed(m: Message, steps: seq<Step>)
    requires m == Message(1, 2, 3, 4, 5)
    requires steps == [Reconfigure(map[(1, 2) := Channel(6, true)]), Receive(0, m), Advance(0, Done),
      Advance(0, Fresh(7, 8, false)),
                       Advance(0, Done), Advance(0, Done), Advance(0, Answered(End(Taken(Malformed), true))),
                         Advance(0, Done)]
    ensures var s := Run(Init, steps);
            KeyOf(m) in s.rows && s.rows[KeyOf(m)].state.Failed?
              && TallyOf(s.effects, KeyOf(m)).ended == [End(Taken(Malformed), true)]
  {
    var e, r := End(Taken(Malformed), true), Route(6, 7, 8);
    var s := Run(Init, steps[..5]);
    assert s.rows == map[KeyOf(m) := Row(m, Routed, Some(r))] && s.calls == map[0 := Call(m, Responding(r))]
        && s.effects == [Responded(KeyOf(m), r, m)] by { RoutedRun(m, steps); }
    var t := Apply(Apply(Apply(s, steps[5]), steps[6]), steps[7]);
    assert Run(Init, steps) == t by {
      RunStep(Init, steps, 5);
      RunStep(Init, steps, 6);
      RunStep(Init, steps, 7);
      assert steps[..8] == steps;
    }
    MalformedEnd(s, m, r, e);
    EndedOnce(KeyOf(m), r, m, e);
  }
}
