/** The staff booking protocol as a transition system: any number of HTTP requests, card announcements and card
callbacks in flight over one database, each committed transaction one step, each external call one step with an
arbitrary answer, and a crash possible between any two steps (src/channels/wecom/staff.ts). */
module StaffProtocol {
  import opened Wrappers
  import opened BookingContracts
  import opened StoreOps
  import opened StaffDatabase

  datatype CustomerNotice = ConfirmedAt(start: Instant) | CancelledNotice | Unprintable

  datatype Text = CardText | FeedbackText(outcome: StaffOutcome, version: nat) | CustomerText(notice: CustomerNotice)

  /** staffCustomerText; Unprintable is its throw. */
  function StaffCustomerText(status: BookingStatus, confirmedStart: Option<Instant>): CustomerNotice {
    if status.Confirmed? && confirmedStart.Some? then ConfirmedAt(confirmedStart.value)
    else if status.Cancelled? then CancelledNotice
    else Unprintable
  }

  datatype Stage = Claiming | Sending | Recording(status: Delivery)

  /** What an in-flight notify or handle call does next. */
  datatype Call =
    | Delivering(task: Id, channel: Channel, text: Text, stage: Stage)
    | LookingUp(task: Id)
    | MarkingUnavailable(task: Id)

  /** One completed call across the network, with the answer the caller saw. */
  datatype Effect = Effect(task: Id, channel: Channel, text: Text, reply: Delivery)

  /** One committed booking transition; claim is the application and task of a staff callback, None for HTTP. */
  datatype Move = Move(booking: Id, before: Booking, after: Booking, claim: Option<(Id, Id)>)

  datatype System = System(db: Db, calls: map<Id, Call>, effects: seq<Effect>, moves: seq<Move>)

  /** Lost is a failed statement, or a committed one whose acknowledgement never arrived. */
  datatype Reply = Done | Lost(committed: bool) | Answer(status: Delivery) | Reachable(routes: bool)

  datatype Step =
    | CreateIntent(ctx: Context, key: Id, input: CreateInput, channelBindings: seq<Id>, newId: Id)
    | HttpTransition(ctx: Context, booking: Id, raw: RawTransition)
    | Notify(call: Id, app: Id, ctx: Context, booking: Id, newTask: Id)
    | Callback(call: Id, app: Id, event: StaffEvent)
    | Advance(call: Id, reply: Reply)
    | Crash(call: Id)
    | Administer(members: seq<Member>, bindings: seq<StaffBinding>, conversations: map<Id, Conversation>)

  const Init := System(Db([], [], map[], map[], map[], map[], map[], map[]), map[], [], [])

  function Without(calls: map<Id, Call>, c: Id): map<Id, Call> { map k | k in calls && k != c :: calls[k] }

  /** Where a delivery goes when it is over, whether it returned or threw. */
  function After(calls: map<Id, Call>, c: Id, d: Call): map<Id, Call>
    requires d.Delivering?
  {
    if d.channel.Feedback? && d.text.FeedbackText? && !d.text.outcome.Conflict? then calls[c := LookingUp(d.task)]
    else Without(calls, c)
  }

  /** safeDelivery: anything but a clear answer is indeterminate. */
  function SafeStatus(d: Delivery): Delivery { if d.Accepted? || d.Rejected? then d else Indeterminate }

  function AdvanceDelivery(s: System, c: Id, d: Call, reply: Reply): System
    requires d.Delivering?
  {
    match d.stage
    case Claiming =>
      var (db', claimed) := TakeDelivery(s.db, d.task, d.channel, Indeterminate);
      if reply.Done? then
        s.(db := db', calls := if claimed then s.calls[c := d.(stage := Sending)] else After(s.calls, c, d))
      else if reply.Lost? then
        s.(db := if reply.committed then db' else s.db, calls := After(s.calls, c, d))
      else s
    case Sending =>
      if !reply.Answer? then s
      else if d.text == CustomerText(Unprintable) then s.(calls := s.calls[c := d.(stage := Recording(Indeterminate))])
      else
        s.(effects := s.effects + [Effect(d.task, d.channel, d.text, SafeStatus(reply.status))],
           calls := s.calls[c := d.(stage := Recording(SafeStatus(reply.status)))])
    case Recording(status) =>
      var db' := RecordDelivery(s.db, d.task, d.channel, status);
      if reply.Done? || reply == Lost(true) then s.(db := db', calls := After(s.calls, c, d))
      else if reply.Lost? then s.(calls := After(s.calls, c, d))
      else s
  }

  function AdvanceCall(s: System, c: Id, reply: Reply): System
    requires c in s.calls
  {
    match s.calls[c]
    case Delivering(_, _, _, _) => AdvanceDelivery(s, c, s.calls[c], reply)
    case LookingUp(task) =>
      if reply.Lost? then s.(calls := Without(s.calls, c))
      else if !reply.Reachable? then s
      else if reply.routes && task in s.db.tasks && s.db.tasks[task].booking in s.db.bookings
              && (s.db.bookings[s.db.tasks[task].booking].status.Confirmed?
                   || s.db.bookings[s.db.tasks[task].booking].status.Cancelled?)
      then
        var b := s.db.bookings[s.db.tasks[task].booking];
        s.(calls := s.calls[c :=
          Delivering(task, Customer, CustomerText(StaffCustomerText(b.status, b.confirmedStart)), Claiming)])
      else s.(calls := s.calls[c := MarkingUnavailable(task)])
    case MarkingUnavailable(task) =>
      if reply.Done? || reply == Lost(true) then
        s.(db := TakeDelivery(s.db, task, Customer, Unavailable).0, calls := Without(s.calls, c))
      else if reply.Lost? then s.(calls := Without(s.calls, c))
      else s
  }

  /** One step; a step that is not enabled, or that reuses an identifier meant to be fresh, changes nothing. */
  function Apply(s: System, step: Step): System {
    match step
    case CreateIntent(ctx, key, input, channelBindings, newId) =>
      if newId in s.db.bookings then s
      else
        (match CreateBooking(s.db, ctx, key, input, channelBindings, newId)
         case Ok((db', _)) => s.(db := db')
         case Err(_) => s)
    case HttpTransition(ctx, booking, raw) =>
      (match CommitTransition(s.db, ctx, booking, raw)
       case Ok(db') => s.(db := db',
         moves := s.moves + [Move(booking, s.db.bookings[booking], db'.bookings[booking], None)])
       case Err(_) => s)
    case Notify(call, app, ctx, booking, newTask) =>
      if call in s.calls || newTask in s.db.tasks then s
      else
        (match PrepareNotification(s.db, app, ctx, booking, newTask)
         case Ok((db', Insert(task))) =>
           s.(db := db', calls := s.calls[call := Delivering(task, Card, CardText, Sending)])
         case _ => s)
    case Callback(call, app, event) =>
      if call in s.calls then s
      else
        (match HandleCallback(s.db, app, event)
         case Ok((db', Settled(outcome, version))) =>
           var b := s.db.tasks[event.task].booking;
           s.(db := db',
              calls := s.calls[call := Delivering(event.task, Feedback, FeedbackText(outcome, version), Claiming)],
              moves := if outcome.Conflict? then s.moves
                       else s.moves + [Move(b, s.db.bookings[b], db'.bookings[b], Some((app, event.task)))])
         case _ => s)
    case Advance(call, reply) => if call in s.calls then AdvanceCall(s, call, reply) else s
    case Crash(call) => s.(calls := Without(s.calls, call))
    case Administer(members, bindings, conversations) =>
      s.(db := s.db.(members := members, bindings := bindings, conversations := conversations))
  }

  function Run(s: System, steps: seq<Step>): System
    decreases |steps|
  {
    if steps == [] then s else Run(Apply(s, steps[0]), steps[1..])
  }

  // Projections of the history

  function Sent(effects: seq<Effect>, task: Id, c: Channel): seq<Effect> {
    if effects == [] then []
    else
      var e := effects[|effects| - 1];
      Sent(effects[..|effects| - 1], task, c) + (if e.task == task && e.channel == c then [e] else [])
  }

  function MovesOf(moves: seq<Move>, booking: Id): seq<Move> {
    if moves == [] then []
    else
      var m := moves[|moves| - 1];
      MovesOf(moves[..|moves| - 1], booking) + (if m.booking == booking then [m] else [])
  }

  function MovesBy(moves: seq<Move>, key: (Id, Id)): seq<Move> {
    if moves == [] then []
    else
      var m := moves[|moves| - 1];
      MovesBy(moves[..|moves| - 1], key) + (if m.claim == Some(key) then [m] else [])
  }

  // Invariants

  /** A row that has left pending keeps its version and times from the moves in the history, in order. */
  ghost predicate Chain(moves: seq<Move>, b: Booking) {
    && |moves| == b.version - 1
    && (moves != [] ==> moves[0].before.status.PendingConfirmation? && moves[|moves| - 1].after == b)
    && (forall i :: 0 <= i < |moves| ==> moves[i].before.version == i + 1 && Moved(moves[i].before, moves[i].after))
    && (forall i :: 0 < i < |moves| ==> moves[i].before == moves[i - 1].after)
  }

  ghost predicate BookingsOk(bookings: map<Id, Booking>, moves: seq<Move>) {
    && (forall b :: b in bookings ==> BookingInvariant(bookings[b]) && Chain(MovesOf(moves, b), bookings[b]))
    && (forall b :: b !in bookings ==> MovesOf(moves, b) == [])
  }

  ghost predicate TasksOk(db: Db) {
    forall t :: t in db.tasks ==>
      var row := db.tasks[t];
      && row.expectedVersion == 1
      && row.booking in db.bookings
      && (row.booking, 1, row.app) in db.taskKeys && db.taskKeys[(row.booking, 1, row.app)] == t
  }

  /** A committed claim is settled, and completed exactly when its own callback moved the booking on by one version. */
  ghost predicate ClaimOk(db: Db, k: (Id, Id), mine: seq<Move>) {
    && k in db.claims && k.1 in db.tasks && db.tasks[k.1].booking in db.bookings
    && var claim, t := db.claims[k], db.tasks[k.1];
       && t.app == k.0
       && claim.payload.task == k.1 && claim.payload.agent == k.0
       && !claim.state.Processing?
       && db.bookings[t.booking].version > t.expectedVersion
       && (claim.state.Failed? ==> mine == [])
       && (claim.state.Completed? ==>
             && |mine| == 1
             && mine[0].booking == t.booking
             && mine[0].before.version == t.expectedVersion
             && mine[0].after.version == t.expectedVersion + 1
             && mine[0].after.status == (if claim.payload.key.BookingConfirm? then Confirmed else Cancelled))
  }

  ghost predicate ClaimsOk(db: Db, moves: seq<Move>) {
    && (forall k :: k in db.claims ==> ClaimOk(db, k, MovesBy(moves, k)))
    && (forall k :: k !in db.claims ==> MovesBy(moves, k) == [])
  }

  predicate Active(call: Call, t: Id, c: Channel) {
    call.Delivering? && call.task == t && call.channel == c && !call.stage.Claiming?
  }

  predicate CompletedTask(db: Db, t: Id) {
    t in db.tasks && (db.tasks[t].app, t) in db.claims && db.claims[(db.tasks[t].app, t)].state.Completed?
  }

  /** What a text that is about to be sent, or was sent, may claim. */
  ghost predicate TextOk(db: Db, t: Id, c: Channel, text: Text) {
    && t in db.tasks && db.tasks[t].booking in db.bookings
    && (c.Card? <==> text.CardText?)
    && (c.Feedback? <==> text.FeedbackText?)
    && (c.Customer? <==> text.CustomerText?)
    && (c.Feedback? ==>
          && (db.tasks[t].app, t) in db.claims
          && var claim := db.claims[(db.tasks[t].app, t)];
             && (text.outcome.Conflict? <==> claim.state.Failed?)
             && (text.outcome.BookingConfirmed? <==> claim.state.Completed? && claim.payload.key.BookingConfirm?)
             && (!text.outcome.Conflict? ==> claim.state.Completed? && text.version == db.tasks[t].expectedVersion + 1))
    && (c.Customer? ==>
          && CompletedTask(db, t)
          && var b := db.bookings[db.tasks[t].booking];
             && !text.notice.Unprintable?
             && (text.notice.ConfirmedAt?
                 ==> (b.status.Confirmed? || b.status.Cancelled?) && b.confirmedStart == Some(text.notice.start))
             && (text.notice.CancelledNotice? ==> b.status.Cancelled?))
  }

  ghost predicate CallOk(db: Db, effects: seq<Effect>, call: Call) {
    match call
    case Delivering(t, c, text, stage) =>
      && TextOk(db, t, c, text)
      && (c.Card? ==> !stage.Claiming?)
      && (stage.Sending? ==> Column(db.tasks[t], c).Indeterminate? && Sent(effects, t, c) == [])
      && (stage.Recording? ==>
            && Column(db.tasks[t], c).Indeterminate?
            && |Sent(effects, t, c)| == 1 && Sent(effects, t, c)[0].reply == stage.status
            && (stage.status.Accepted? || stage.status.Rejected? || stage.status.Indeterminate?))
    case LookingUp(t) => CompletedTask(db, t)
    case MarkingUnavailable(t) => CompletedTask(db, t)
  }

  ghost predicate CallsOk(db: Db, effects: seq<Effect>, calls: map<Id, Call>) {
    && (forall k :: k in calls ==> CallOk(db, effects, calls[k]))
    && (forall k, l, t, c :: k in calls && l in calls && Active(calls[k], t, c) && Active(calls[l], t, c) ==> k == l)
  }

  /** A delivery column never says more than the network saw. */
  ghost predicate Honest(column: Delivery, sent: seq<Effect>, c: Channel) {
    && |sent| <= 1
    && (column.NotSent? ==> sent == [] && !c.Card?)
    && (column.Unavailable? ==> sent == [] && c.Customer?)
    && (column.Accepted? || column.Rejected? ==> |sent| == 1 && sent[0].reply == column)
  }

  ghost predicate ColumnsOk(tasks: map<Id, Task>, effects: seq<Effect>) {
    && (forall t, c :: t in tasks ==> Honest(Column(tasks[t], c), Sent(effects, t, c), c))
    && (forall t, c :: t !in tasks ==> Sent(effects, t, c) == [])
  }

  ghost predicate TextsOk(db: Db, effects: seq<Effect>) {
    forall i :: 0 <= i < |effects| ==> TextOk(db, effects[i].task, effects[i].channel, effects[i].text)
  }

  ghost predicate Invariant(s: System) {
    && BookingsOk(s.db.bookings, s.moves)
    && TasksOk(s.db)
    && ClaimsOk(s.db, s.moves)
    && CallsOk(s.db, s.effects, s.calls)
    && ColumnsOk(s.db.tasks, s.effects)
    && TextsOk(s.db, s.effects)
  }

  // Histories grow at the end

  lemma SentAppend(effects: seq<Effect>, e: Effect, task: Id, c: Channel)
    ensures Sent(effects + [e], task, c) == Sent(effects, task, c)
      + (if e.task == task && e.channel == c then [e] else [])
  {
    assert (effects + [e])[..|effects|] == effects;
  }

  lemma MovesAppend(moves: seq<Move>, m: Move, booking: Id, key: (Id, Id))
    ensures MovesOf(moves + [m], booking) == MovesOf(moves, booking) + (if m.booking == booking then [m] else [])
    ensures MovesBy(moves + [m], key) == MovesBy(moves, key) + (if m.claim == Some(key) then [m] else [])
  {
    assert (moves + [m])[..|moves|] == moves;
  }

  // What every step keeps of the rows

  ghost predicate SameTask(a: Task, b: Task) {
    b.booking == a.booking && b.app == a.app && b.binding == a.binding && b.expectedVersion == a.expectedVersion
  }

  /** Once a booking is settled its times stay; once cancelled, everything stays. */
  ghost predicate Later(a: Booking, b: Booking) {
    && a.version <= b.version
    && (a.version == b.version ==> a == b)
    && (a.status.Cancelled? ==> a == b)
    && (a.status.Confirmed? ==>
          (b.status.Confirmed? || b.status.Cancelled?) && b.confirmedStart == a.confirmedStart
            && b.confirmedEnd == a.confirmedEnd)
  }

  /** A delivery column that has left not_sent never returns to it. */
  ghost predicate Grows(a: Db, b: Db) {
    && (forall t :: t in a.tasks ==> t in b.tasks && SameTask(a.tasks[t], b.tasks[t]))
    && (forall t, c :: t in a.tasks && t in b.tasks && Column(b.tasks[t], c).NotSent?
         ==> Column(a.tasks[t], c).NotSent?)
    && (forall k :: k in a.claims ==> k in b.claims && b.claims[k] == a.claims[k])
    && (forall i :: i in a.bookings ==> i in b.bookings && Later(a.bookings[i], b.bookings[i]))
  }

  lemma GrowsTransitive(a: Db, b: Db, c: Db)
    requires Grows(a, b) && Grows(b, c)
    ensures Grows(a, c)
  {
  }

  lemma TextStays(a: Db, b: Db, t: Id, c: Channel, text: Text)
    requires Grows(a, b) && TextOk(a, t, c, text)
    ensures TextOk(b, t, c, text)
  {
  }

  // Frames: what a step that leaves a part alone keeps of it

  lemma ClaimsFrame(a: Db, b: Db, moves: seq<Move>)
    requires Grows(a, b) && b.claims == a.claims && ClaimsOk(a, moves)
    ensures ClaimsOk(b, moves)
  {
    forall k | k in b.claims ensures ClaimOk(b, k, MovesBy(moves, k)) {
      assert ClaimOk(a, k, MovesBy(moves, k));
    }
  }

  lemma TextsFrame(a: Db, b: Db, effects: seq<Effect>)
    requires Grows(a, b) && TextsOk(a, effects)
    ensures TextsOk(b, effects)
  {
    forall i | 0 <= i < |effects| ensures TextOk(b, effects[i].task, effects[i].channel, effects[i].text) {
      TextStays(a, b, effects[i].task, effects[i].channel, effects[i].text);
    }
  }

  ghost predicate SameColumns(a: Db, b: Db) {
    forall t, c :: t in a.tasks && t in b.tasks ==> Column(b.tasks[t], c) == Column(a.tasks[t], c)
  }

  lemma CallFrame(a: Db, b: Db, effects: seq<Effect>, call: Call)
    requires Grows(a, b) && SameColumns(a, b) && CallOk(a, effects, call)
    ensures CallOk(b, effects, call)
  {
    if call.Delivering? { TextStays(a, b, call.task, call.channel, call.text); }
  }

  lemma CallsFrame(a: Db, b: Db, effects: seq<Effect>, calls: map<Id, Call>)
    requires Grows(a, b) && SameColumns(a, b) && CallsOk(a, effects, calls)
    ensures CallsOk(b, effects, calls)
  {
    forall k | k in calls ensures CallOk(b, effects, calls[k]) {
      CallFrame(a, b, effects, calls[k]);
    }
  }

  lemma ChainGrows(moves: seq<Move>, m: Move)
    requires Chain(moves, m.before) && BookingInvariant(m.before) && Moved(m.before, m.after)
    ensures Chain(moves + [m], m.after)
  {
  }

  lemma BookingGrows(bookings: map<Id, Booking>, moves: seq<Move>, m: Move, b: Id)
    requires BookingsOk(bookings, moves) && m.booking in bookings && m.before == bookings[m.booking] && b in bookings
    requires BookingInvariant(m.after) && Moved(m.before, m.after)
    ensures var after := bookings[m.booking := m.after][b];
            BookingInvariant(after) && Chain(MovesOf(moves + [m], b), after)
  {
    MovesAppend(moves, m, b, (0, 0));
    if b == m.booking {
      ChainGrows(MovesOf(moves, b), m);
    } else {
      assert MovesOf(moves + [m], b) == MovesOf(moves, b);
    }
  }

  lemma BookingsGrow(bookings: map<Id, Booking>, moves: seq<Move>, m: Move)
    requires BookingsOk(bookings, moves)
    requires m.booking in bookings && m.before == bookings[m.booking]
    requires BookingInvariant(m.after) && Moved(m.before, m.after)
    ensures BookingsOk(bookings[m.booking := m.after], moves + [m])
  {
    var bookings' := bookings[m.booking := m.after];
    forall b | b in bookings' ensures BookingInvariant(bookings'[b]) && Chain(MovesOf(moves + [m], b), bookings'[b]) {
      BookingGrows(bookings, moves, m, b);
    }
    forall b | b !in bookings' ensures MovesOf(moves + [m], b) == [] {
      MovesAppend(moves, m, b, (0, 0));
    }
  }

  lemma CommitGrows(db: Db, booking: Id, after: Booking)
    requires booking in db.bookings && BookingInvariant(db.bookings[booking])
    requires BookingInvariant(after) && Moved(db.bookings[booking], after)
    ensures var db' := db.(bookings := db.bookings[booking := after]); Grows(db, db') && SameColumns(db, db')
  {
  }

  // Each step keeps the invariant

  ghost predicate Kept(s: System, s': System) { Invariant(s') && Grows(s.db, s'.db) }

  lemma TasksFrame(a: Db, b: Db)
    requires TasksOk(a) && a.bookings.Keys <= b.bookings.Keys && b.taskKeys == a.taskKeys
    requires forall t :: t in b.tasks ==> t in a.tasks && SameTask(a.tasks[t], b.tasks[t])
    ensures TasksOk(b)
  {
  }

  /** A step that only extends the bookings, and the history with the same move. */
  lemma BookingStep(s: System, s': System)
    requires Invariant(s)
    requires s'.db == s.db.(bookings := s'.db.bookings, bookingKeys := s'.db.bookingKeys)
    requires s'.calls == s.calls && s'.effects == s.effects
    requires Grows(s.db, s'.db) && BookingsOk(s'.db.bookings, s'.moves)
    requires forall k: (Id, Id) :: MovesBy(s'.moves, k) == MovesBy(s.moves, k)
    ensures Kept(s, s')
  {
    assert SameColumns(s.db, s'.db);
    CallsFrame(s.db, s'.db, s.effects, s.calls);
    TextsFrame(s.db, s'.db, s.effects);
    ClaimsFrame(s.db, s'.db, s.moves);
    TasksFrame(s.db, s'.db);
  }

  lemma HttpTransitionKeeps(s: System, ctx: Context, booking: Id, raw: RawTransition)
    requires Invariant(s)
    ensures Kept(s, Apply(s, HttpTransition(ctx, booking, raw)))
  {
    var s' := Apply(s, HttpTransition(ctx, booking, raw));
    if s' != s {
      TransitionKeepsInvariant(s.db.members, s.db.bookings, ctx, booking, raw);
      var m := s'.moves[|s.moves|];
      BookingsGrow(s.db.bookings, s.moves, m);
      CommitGrows(s.db, booking, m.after);
      forall k: (Id, Id) ensures MovesBy(s'.moves, k) == MovesBy(s.moves, k) {
        MovesAppend(s.moves, m, 0, k);
      }
      BookingStep(s, s');
    }
  }

  predicate NewBooking(b: Booking) {
    b.version == 1 && b.status.PendingConfirmation? && b.alternativeStart.None? && b.confirmedStart.None?
  }

  /** db' has one new pending booking and its idempotency key, and nothing else. */
  predicate Begins(db: Db, db': Db, id: Id) {
    && id !in db.bookings && id in db'.bookings && NewBooking(db'.bookings[id])
    && db' == db.(bookings := db.bookings[id := db'.bookings[id]], bookingKeys := db'.bookingKeys)
  }

  lemma CreateEffect(db: Db, ctx: Context, key: Id, input: CreateInput, channelBindings: seq<Id>, newId: Id)
    requires CreateBooking(db, ctx, key, input, channelBindings, newId).Ok? && newId !in db.bookings
    ensures var db' := CreateBooking(db, ctx, key, input, channelBindings, newId).value.0;
            db' == db || Begins(db, db', newId)
  {
  }

  lemma BeginStep(s: System, s': System, id: Id)
    requires Invariant(s) && Begins(s.db, s'.db, id) && s' == s.(db := s'.db)
    ensures Kept(s, s')
  {
    BookingsBegin(s.db.bookings, s.moves, id, s'.db.bookings[id]);
    BeginGrows(s.db, s'.db, id);
    BookingStep(s, s');
  }

  lemma BeginGrows(db: Db, db': Db, id: Id)
    requires Begins(db, db', id)
    ensures Grows(db, db')
  {
  }

  lemma BookingsBegin(bookings: map<Id, Booking>, moves: seq<Move>, id: Id, b: Booking)
    requires BookingsOk(bookings, moves) && id !in bookings && NewBooking(b)
    ensures BookingsOk(bookings[id := b], moves)
  {
  }

  lemma CreateIntentKeeps(s: System, ctx: Context, key: Id, input: CreateInput, channelBindings: seq<Id>, newId: Id)
    requires Invariant(s)
    ensures Kept(s, Apply(s, CreateIntent(ctx, key, input, channelBindings, newId)))
  {
    var s' := Apply(s, CreateIntent(ctx, key, input, channelBindings, newId));
    if newId !in s.db.bookings && CreateBooking(s.db, ctx, key, input, channelBindings, newId).Ok? {
      CreateEffect(s.db, ctx, key, input, channelBindings, newId);
      if s'.db != s.db { BeginStep(s, s', newId); } else { KeptSame(s); }
    } else {
      KeptSame(s);
    }
  }

  lemma KeptSame(s: System)
    requires Invariant(s)
    ensures Kept(s, s)
  {
  }

  /** db' has one new task, for a pending booking not yet announced to its application, and nothing else. */
  predicate Announces(db: Db, db': Db, t: Id) {
    && t !in db.tasks && t in db'.tasks
    && var row := db'.tasks[t];
       && row.booking in db.bookings && db.bookings[row.booking].status.PendingConfirmation?
       && row.expectedVersion == db.bookings[row.booking].version
       && (row.booking, row.expectedVersion, row.app) !in db.taskKeys
       && row.delivery.Indeterminate? && row.feedback.NotSent? && row.customer.NotSent?
       && db' == db.(tasks := db.tasks[t := row],
            taskKeys := db.taskKeys[(row.booking, row.expectedVersion, row.app) := t])
  }

  lemma PrepareEffect(db: Db, app: Id, ctx: Context, booking: Id, newTask: Id)
    requires newTask !in db.tasks
    requires PrepareNotification(db, app, ctx, booking, newTask).Ok?
    requires PrepareNotification(db, app, ctx, booking, newTask).value.1.Insert?
    ensures PrepareNotification(db, app, ctx, booking, newTask).value.1.task == newTask
    ensures Announces(db, PrepareNotification(db, app, ctx, booking, newTask).value.0, newTask)
  {
  }

  lemma AnnounceGrows(db: Db, db': Db, t: Id)
    requires Announces(db, db', t)
    ensures Grows(db, db') && SameColumns(db, db')
  {
  }

  lemma AnnounceTasks(db: Db, db': Db, t: Id)
    requires Announces(db, db', t) && TasksOk(db)
    requires BookingInvariant(db.bookings[db'.tasks[t].booking])
    ensures TasksOk(db')
  {
  }

  lemma AnnounceColumns(db: Db, db': Db, t: Id, effects: seq<Effect>)
    requires Announces(db, db', t) && ColumnsOk(db.tasks, effects)
    ensures ColumnsOk(db'.tasks, effects)
  {
    forall u, c | u in db'.tasks ensures Honest(Column(db'.tasks[u], c), Sent(effects, u, c), c) {
      if u == t {
        assert Sent(effects, t, c) == [];
      } else {
        assert Honest(Column(db.tasks[u], c), Sent(effects, u, c), c);
      }
    }
  }

  lemma AnnounceStep(s: System, s': System, call: Id, t: Id)
    requires Invariant(s) && call !in s.calls && Announces(s.db, s'.db, t)
    requires s' == s.(db := s'.db, calls := s.calls[call := Delivering(t, Card, CardText, Sending)])
    ensures Kept(s, s')
  {
    AnnounceGrows(s.db, s'.db, t);
    AnnounceTasks(s.db, s'.db, t);
    AnnounceColumns(s.db, s'.db, t, s.effects);
    CallsFrame(s.db, s'.db, s.effects, s.calls);
    TextsFrame(s.db, s'.db, s.effects);
    ClaimsFrame(s.db, s'.db, s.moves);
    NewCard(s, s', call, t);
  }

  lemma NotifyKeeps(s: System, call: Id, app: Id, ctx: Context, booking: Id, newTask: Id)
    requires Invariant(s)
    ensures Kept(s, Apply(s, Notify(call, app, ctx, booking, newTask)))
  {
    var s' := Apply(s, Notify(call, app, ctx, booking, newTask));
    if s' != s {
      PrepareEffect(s.db, app, ctx, booking, newTask);
      AnnounceStep(s, s', call, newTask);
    } else {
      KeptSame(s);
    }
  }

  /** The freshly inserted task has no other call. */
  lemma NewCard(s: System, s': System, call: Id, newTask: Id)
    requires CallsOk(s.db, s.effects, s.calls) && CallsOk(s'.db, s.effects, s.calls) && call !in s.calls
      && newTask !in s.db.tasks
    requires s'.calls == s.calls[call := Delivering(newTask, Card, CardText, Sending)] && s'.effects == s.effects
    requires newTask in s'.db.tasks && s'.db.tasks[newTask].booking in s'.db.bookings
    requires s'.db.tasks[newTask].delivery.Indeterminate? && Sent(s.effects, newTask, Card) == []
    ensures CallsOk(s'.db, s'.effects, s'.calls)
  {
    forall k | k in s.calls ensures !Active(s.calls[k], newTask, Card) {
      assert CallOk(s.db, s.effects, s.calls[k]);
    }
  }

  lemma MovesExtend(moves: seq<Move>, more: seq<Move>, key: (Id, Id), k: (Id, Id))
    requires |more| <= 1 && (forall m :: m in more ==> m.claim == Some(key))
    ensures MovesBy(moves + more, k) == MovesBy(moves, k) + (if k == key then more else [])
  {
    if more == [] {
      assert moves + more == moves;
    } else {
      assert more == [more[0]] && more[0] in more;
      MovesAppend(moves, more[0], 0, k);
    }
  }

  lemma ClaimStays(a: Db, b: Db, k: (Id, Id), mine: seq<Move>)
    requires Grows(a, b) && ClaimOk(a, k, mine)
    ensures ClaimOk(b, k, mine)
  {
  }

  lemma ClaimSettles(s: System, s': System, key: (Id, Id), more: seq<Move>)
    requires ClaimsOk(s.db, s.moves) && key !in s.db.claims && Grows(s.db, s'.db)
    requires key in s'.db.claims && s'.db.claims == s.db.claims[key := s'.db.claims[key]]
    requires s'.moves == s.moves + more && |more| <= 1 && (forall m :: m in more ==> m.claim == Some(key))
    requires ClaimOk(s'.db, key, more)
    ensures ClaimsOk(s'.db, s'.moves)
  {
    forall k ensures MovesBy(s'.moves, k) == MovesBy(s.moves, k) + (if k == key then more else []) {
      MovesExtend(s.moves, more, key, k);
    }
    forall k | k in s'.db.claims ensures ClaimOk(s'.db, k, MovesBy(s'.moves, k)) {
      if k != key {
        ClaimStays(s.db, s'.db, k, MovesBy(s.moves, k));
      }
    }
  }

  /** The callback found its booking already moved on: only a failed claim is added. */
  predicate Refuses(db: Db, db': Db, app: Id, event: StaffEvent) {
    && event.agent == app && event.task in db.tasks
    && var t := db.tasks[event.task];
       && t.app == app && (app, event.task) !in db.claims && t.booking in db.bookings
       && (db.bookings[t.booking].version != t.expectedVersion || !db.bookings[t.booking].status.PendingConfirmation?)
       && db' == db.(claims := db.claims[(app, event.task) := Claim(event, Failed)])
  }

  /** The callback moved the booking of its task on by one version and added a completed claim. */
  ghost predicate Settles(db: Db, db': Db, app: Id, event: StaffEvent) {
    && event.agent == app && event.task in db.tasks
    && var t := db.tasks[event.task];
       && t.app == app && (app, event.task) !in db.claims && t.booking in db.bookings && t.booking in db'.bookings
       && var before, after := db.bookings[t.booking], db'.bookings[t.booking];
          && before.version == t.expectedVersion && before.status.PendingConfirmation?
          && BookingInvariant(after) && Moved(before, after)
          && after.status == (if event.key.BookingConfirm? then Confirmed else Cancelled)
          && db' == db.(bookings := db.bookings[t.booking := after],
               claims := db.claims[(app, event.task) := Claim(event, Completed)])
  }

  lemma CallbackEffect(db: Db, app: Id, event: StaffEvent)
    requires forall b :: b in db.bookings ==> BookingInvariant(db.bookings[b])
    requires HandleCallback(db, app, event).Ok? && HandleCallback(db, app, event).value.1.Settled?
    ensures var (db', handled) := HandleCallback(db, app, event).value;
            && (handled.outcome.Conflict? ==> Refuses(db, db', app, event))
            && (!handled.outcome.Conflict? ==>
                  && Settles(db, db', app, event)
                  && handled.outcome == (if event.key.BookingConfirm? then BookingConfirmed else BookingCancelled)
                  && handled.version == db.tasks[event.task].expectedVersion + 1)
  {
    var t := db.tasks[event.task];
    var b := db.bookings[t.booking];
    if !HandleCallback(db, app, event).value.1.outcome.Conflict? {
      var identity := OfSubject(StaffIdentities(db.bindings, db.members, app), event.subject)[0];
      TransitionKeepsInvariant(db.members, db.bookings, ContextFor(identity.member), t.booking,
        StaffRequest(event.key, t, b));
    }
  }

  ghost predicate RefuseShape(s: System, s': System, call: Id, event: StaffEvent, version: nat) {
    && call !in s.calls && Refuses(s.db, s'.db, event.agent, event)
    && s' == s.(db := s'.db,
         calls := s.calls[call := Delivering(event.task, Feedback, FeedbackText(Conflict, version), Claiming)])
  }

  ghost predicate SettleShape(s: System, s': System, call: Id, event: StaffEvent) {
    && call !in s.calls && Settles(s.db, s'.db, event.agent, event) && s'.effects == s.effects
    && (var b := s.db.tasks[event.task].booking;
        s'.moves == s.moves + [Move(b, s.db.bookings[b], s'.db.bookings[b], Some((event.agent, event.task)))])
    && (var outcome := if event.key.BookingConfirm? then BookingConfirmed else BookingCancelled;
        s'.calls == s.calls[call :=
          Delivering(event.task, Feedback, FeedbackText(outcome, s.db.tasks[event.task].expectedVersion + 1),
            Claiming)])
  }

  /** What a callback does to the system, in terms of what it does to the rows. */
  lemma CallbackShape(s: System, s': System, call: Id, app: Id, event: StaffEvent) returns (version: nat)
    requires (forall b :: b in s.db.bookings ==> BookingInvariant(s.db.bookings[b]))
      && s' == Apply(s, Callback(call, app, event))
    ensures s' == s || RefuseShape(s, s', call, event, version) || SettleShape(s, s', call, event)
  {
    version := 0;
    if call !in s.calls && HandleCallback(s.db, app, event).Ok? && HandleCallback(s.db, app, event).value.1.Settled? {
      CallbackEffect(s.db, app, event);
      version := HandleCallback(s.db, app, event).value.1.version;
    }
  }

  lemma ShapeKeeps(s: System, s': System, call: Id, event: StaffEvent, version: nat)
    requires Invariant(s) && (s' == s || RefuseShape(s, s', call, event, version) || SettleShape(s, s', call, event))
    ensures Kept(s, s')
  {
    if s' == s {
      KeptSame(s);
    } else if RefuseShape(s, s', call, event, version) {
      RefuseStep(s, s', call, event, version);
    } else {
      SettleStep(s, s', call, event);
    }
  }

  lemma CallbackKeeps(s: System, s': System, call: Id, app: Id, event: StaffEvent)
    requires Invariant(s) && s' == Apply(s, Callback(call, app, event))
    ensures Kept(s, s')
  {
    var version := CallbackShape(s, s', call, app, event);
    ShapeKeeps(s, s', call, event, version);
  }

  lemma RefuseGrows(db: Db, db': Db, event: StaffEvent)
    requires Refuses(db, db', event.agent, event)
    ensures Grows(db, db') && SameColumns(db, db')
  {
  }

  lemma RefuseClaims(s: System, s': System, event: StaffEvent)
    requires Refuses(s.db, s'.db, event.agent, event) && ClaimsOk(s.db, s.moves) && s'.moves == s.moves && TasksOk(s.db)
    requires BookingInvariant(s.db.bookings[s.db.tasks[event.task].booking])
    ensures ClaimsOk(s'.db, s'.moves)
  {
    RefuseGrows(s.db, s'.db, event);
    assert s'.moves == s.moves + [];
    ClaimSettles(s, s', (event.agent, event.task), []);
  }

  lemma RefuseCalls(s: System, s': System, call: Id, event: StaffEvent, version: nat)
    requires CallsOk(s.db, s.effects, s.calls) && RefuseShape(s, s', call, event, version)
    ensures CallsOk(s'.db, s'.effects, s'.calls)
  {
    RefuseGrows(s.db, s'.db, event);
    CallsFrame(s.db, s'.db, s.effects, s.calls);
    CallsDrop(s'.db, s.effects, s.calls, s'.calls, call);
  }

  lemma RefuseStep(s: System, s': System, call: Id, event: StaffEvent, version: nat)
    requires Invariant(s) && RefuseShape(s, s', call, event, version)
    ensures Kept(s, s')
  {
    RefuseGrows(s.db, s'.db, event);
    RefuseClaims(s, s', event);
    RefuseCalls(s, s', call, event, version);
    TextsFrame(s.db, s'.db, s.effects);
    TasksFrame(s.db, s'.db);
  }

  lemma SettleGrows(db: Db, db': Db, event: StaffEvent)
    requires Settles(db, db', event.agent, event)
    ensures Grows(db, db') && SameColumns(db, db')
  {
  }

  lemma SettleClaims(s: System, s': System, event: StaffEvent, m: Move)
    requires Settles(s.db, s'.db, event.agent, event) && ClaimsOk(s.db, s.moves)
    requires var b := s.db.tasks[event.task].booking;
             m == Move(b, s.db.bookings[b], s'.db.bookings[b], Some((event.agent, event.task)))
    requires s'.moves == s.moves + [m]
    ensures ClaimsOk(s'.db, s'.moves)
  {
    SettleGrows(s.db, s'.db, event);
    ClaimSettles(s, s', (event.agent, event.task), [m]);
  }

  lemma SettleBookings(s: System, db': Db, event: StaffEvent, m: Move)
    requires Settles(s.db, db', event.agent, event) && BookingsOk(s.db.bookings, s.moves)
    requires var b := s.db.tasks[event.task].booking;
             m == Move(b, s.db.bookings[b], db'.bookings[b], Some((event.agent, event.task)))
    ensures BookingsOk(db'.bookings, s.moves + [m])
  {
    BookingsGrow(s.db.bookings, s.moves, m);
  }

  lemma SettleCalls(s: System, s': System, call: Id, event: StaffEvent)
    requires CallsOk(s.db, s.effects, s.calls) && call !in s.calls && Settles(s.db, s'.db, event.agent, event)
    requires var outcome := if event.key.BookingConfirm? then BookingConfirmed else BookingCancelled;
             s'.calls == s.calls[call :=
               Delivering(event.task, Feedback, FeedbackText(outcome, s.db.tasks[event.task].expectedVersion + 1),
                 Claiming)]
    requires s'.effects == s.effects
    ensures CallsOk(s'.db, s'.effects, s'.calls)
  {
    SettleGrows(s.db, s'.db, event);
    CallsFrame(s.db, s'.db, s.effects, s.calls);
    CallsDrop(s'.db, s.effects, s.calls, s'.calls, call);
  }

  lemma SettleStep(s: System, s': System, call: Id, event: StaffEvent)
    requires Invariant(s) && SettleShape(s, s', call, event)
    ensures Kept(s, s')
  {
    var m := s'.moves[|s.moves|];
    SettleBookings(s, s'.db, event, m);
    SettleGrows(s.db, s'.db, event);
    SettleClaims(s, s', event, m);
    SettleCalls(s, s', call, event);
    TextsFrame(s.db, s'.db, s.effects);
    TasksFrame(s.db, s'.db);
  }

  // Advancing a call

  /** Writing one column of one task leaves every other column alone. */
  lemma OneColumn(db: Db, task: Id, c: Channel, d: Delivery)
    requires task in db.tasks && !d.NotSent?
    ensures var db' := db.(tasks := db.tasks[task := WithColumn(db.tasks[task], c, d)]);
            && Grows(db, db')
            && forall t, e | t in db.tasks :: Column(db'.tasks[t], e) == if t == task && e == c then
               d else Column(db.tasks[t], e)
  {
  }

  /** Dropping a call, or moving it to a stage that is not active, keeps the others. */
  lemma CallsDrop(db: Db, effects: seq<Effect>, calls: map<Id, Call>, calls': map<Id, Call>, c: Id)
    requires CallsOk(db, effects, calls)
    requires forall k :: k in calls' && k != c ==> k in calls && calls'[k] == calls[k]
    requires c in calls' ==> CallOk(db, effects, calls'[c])
    requires c in calls' && calls'[c].Delivering? && !calls'[c].stage.Claiming? ==>
               forall k :: k in calls && k != c ==> !Active(calls[k], calls'[c].task, calls'[c].channel)
    ensures CallsOk(db, effects, calls')
  {
  }

  /** The rows after one delivery column is written. */
  function Written(db: Db, task: Id, c: Channel, d: Delivery): Db
    requires task in db.tasks
  {
    db.(tasks := db.tasks[task := WithColumn(db.tasks[task], c, d)])
  }

  lemma WriteTasks(db: Db, task: Id, c: Channel, d: Delivery)
    requires task in db.tasks && !d.NotSent? && TasksOk(db)
    ensures TasksOk(Written(db, task, c, d))
  {
    OneColumn(db, task, c, d);
    TasksFrame(db, Written(db, task, c, d));
  }

  lemma WriteColumns(db: Db, task: Id, c: Channel, d: Delivery, effects: seq<Effect>)
    requires task in db.tasks && !d.NotSent? && ColumnsOk(db.tasks, effects)
    requires Honest(d, Sent(effects, task, c), c)
    ensures ColumnsOk(Written(db, task, c, d).tasks, effects)
  {
    var db' := Written(db, task, c, d);
    OneColumn(db, task, c, d);
    forall t, e | t in db'.tasks ensures Honest(Column(db'.tasks[t], e), Sent(effects, t, e), e) {
      assert Honest(Column(db.tasks[t], e), Sent(effects, t, e), e);
    }
  }

  /** Calls other than the writer survive a write to a column that none of them is using. */
  lemma WriteCalls(db: Db, task: Id, c: Channel, d: Delivery, effects: seq<Effect>, calls: map<Id, Call>, writer: Id)
    requires task in db.tasks && !d.NotSent? && CallsOk(db, effects, calls)
    requires forall k :: k in calls && k != writer ==> !Active(calls[k], task, c)
    ensures CallsOk(Written(db, task, c, d), effects, Without(calls, writer))
  {
    var db' := Written(db, task, c, d);
    OneColumn(db, task, c, d);
    forall k | k in Without(calls, writer) ensures CallOk(db', effects, calls[k]) {
      assert CallOk(db, effects, calls[k]);
      if calls[k].Delivering? { TextStays(db, db', calls[k].task, calls[k].channel, calls[k].text); }
    }
  }

  lemma WriteStep(s: System, s': System, task: Id, c: Channel, d: Delivery)
    requires Invariant(s) && task in s.db.tasks && !d.NotSent?
    requires s'.db == Written(s.db, task, c, d) && s'.effects == s.effects && s'.moves == s.moves
    requires Honest(d, Sent(s.effects, task, c), c)
    requires CallsOk(s'.db, s'.effects, s'.calls)
    ensures Kept(s, s')
  {
    OneColumn(s.db, task, c, d);
    WriteTasks(s.db, task, c, d);
    WriteColumns(s.db, task, c, d, s.effects);
    ClaimsFrame(s.db, s'.db, s.moves);
    TextsFrame(s.db, s'.db, s.effects);
  }

  lemma CallsOnlyStep(s: System, s': System)
    requires Invariant(s) && s' == s.(calls := s'.calls) && CallsOk(s.db, s.effects, s'.calls)
    ensures Kept(s, s')
  {
  }

  /** The follow-up of a delivery is inactive and still allowed. */
  lemma AfterOk(db: Db, effects: seq<Effect>, calls: map<Id, Call>, c: Id, d: Call)
    requires d.Delivering? && TextOk(db, d.task, d.channel, d.text) && CallsOk(db, effects, Without(calls, c))
    ensures CallsOk(db, effects, After(calls, c, d))
  {
    CallsDrop(db, effects, Without(calls, c), After(calls, c, d), c);
  }

  lemma WithoutOk(db: Db, effects: seq<Effect>, calls: map<Id, Call>, c: Id)
    requires CallsOk(db, effects, calls)
    ensures CallsOk(db, effects, Without(calls, c))
  {
    CallsDrop(db, effects, calls, Without(calls, c), c);
  }

  /** A column still at not_sent has no active call. */
  lemma UnclaimedIsIdle(s: System, task: Id, c: Channel, k: Id)
    requires Invariant(s) && task in s.db.tasks && Column(s.db.tasks[task], c).NotSent? && k in s.calls
    ensures !Active(s.calls[k], task, c)
  {
    assert CallOk(s.db, s.effects, s.calls[k]);
  }

  /** The column is free, so nobody is active on it; it is written. */
  lemma ColumnTaken(s: System, c: Id, d: Call)
    requires Invariant(s) && c in s.calls && s.calls[c] == d && d.Delivering? && d.stage.Claiming?
    requires d.task in s.db.tasks && Column(s.db.tasks[d.task], d.channel).NotSent?
    ensures var db := Written(s.db, d.task, d.channel, Indeterminate);
            && Grows(s.db, db) && Column(db.tasks[d.task], d.channel).Indeterminate?
            && Sent(s.effects, d.task, d.channel) == []
            && CallsOk(db, s.effects, Without(s.calls, c)) && TextOk(db, d.task, d.channel, d.text)
    ensures Honest(Indeterminate, Sent(s.effects, d.task, d.channel), d.channel)
    ensures forall k :: k in s.calls ==> !Active(s.calls[k], d.task, d.channel)
  {
    assert CallOk(s.db, s.effects, d);
    assert Honest(Column(s.db.tasks[d.task], d.channel), Sent(s.effects, d.task, d.channel), d.channel);
    forall k | k in s.calls ensures !Active(s.calls[k], d.task, d.channel) {
      UnclaimedIsIdle(s, d.task, d.channel, k);
    }
    OneColumn(s.db, d.task, d.channel, Indeterminate);
    WriteCalls(s.db, d.task, d.channel, Indeterminate, s.effects, s.calls, c);
    TextStays(s.db, Written(s.db, d.task, d.channel, Indeterminate), d.task, d.channel, d.text);
  }

  lemma TakenCalls(db: Db, effects: seq<Effect>, calls: map<Id, Call>, c: Id, d: Call)
    requires d.Delivering? && CallsOk(db, effects, Without(calls, c)) && TextOk(db, d.task, d.channel, d.text)
    requires Column(db.tasks[d.task], d.channel).Indeterminate? && Sent(effects, d.task, d.channel) == []
    requires forall k :: k in calls ==> !Active(calls[k], d.task, d.channel)
    ensures CallsOk(db, effects, calls[c := d.(stage := Sending)])
  {
    CallsDrop(db, effects, Without(calls, c), calls[c := d.(stage := Sending)], c);
  }

  lemma TakenSends(s: System, c: Id, d: Call)
    requires Invariant(s) && c in s.calls && s.calls[c] == d && d.Delivering? && d.stage.Claiming?
    requires d.task in s.db.tasks && Column(s.db.tasks[d.task], d.channel).NotSent?
    ensures Kept(s, s.(db := Written(s.db, d.task, d.channel, Indeterminate),
      calls := s.calls[c := d.(stage := Sending)]))
  {
    var db := Written(s.db, d.task, d.channel, Indeterminate);
    ColumnTaken(s, c, d);
    TakenCalls(db, s.effects, s.calls, c, d);
    WriteStep(s, s.(db := db, calls := s.calls[c := d.(stage := Sending)]), d.task, d.channel, Indeterminate);
  }

  lemma TakenLost(s: System, c: Id, d: Call)
    requires Invariant(s) && c in s.calls && s.calls[c] == d && d.Delivering? && d.stage.Claiming?
    requires d.task in s.db.tasks && Column(s.db.tasks[d.task], d.channel).NotSent?
    ensures Kept(s, s.(db := Written(s.db, d.task, d.channel, Indeterminate), calls := After(s.calls, c, d)))
  {
    var db := Written(s.db, d.task, d.channel, Indeterminate);
    ColumnTaken(s, c, d);
    AfterOk(db, s.effects, s.calls, c, d);
    WriteStep(s, s.(db := db, calls := After(s.calls, c, d)), d.task, d.channel, Indeterminate);
  }

  lemma AfterKept(s: System, c: Id, d: Call)
    requires Invariant(s) && c in s.calls && s.calls[c] == d && d.Delivering?
    ensures Kept(s, s.(calls := After(s.calls, c, d)))
  {
    assert CallOk(s.db, s.effects, d);
    WithoutOk(s.db, s.effects, s.calls, c);
    AfterOk(s.db, s.effects, s.calls, c, d);
    CallsOnlyStep(s, s.(calls := After(s.calls, c, d)));
  }

  lemma ClaimingKeeps(s: System, c: Id, reply: Reply)
    requires Invariant(s) && c in s.calls && s.calls[c].Delivering? && s.calls[c].stage.Claiming?
    ensures Kept(s, AdvanceDelivery(s, c, s.calls[c], reply))
  {
    var d := s.calls[c];
    var free := d.task in s.db.tasks && Column(s.db.tasks[d.task], d.channel).NotSent?;
    if reply.Done? && free {
      TakenSends(s, c, d);
    } else if reply == Lost(true) && free {
      TakenLost(s, c, d);
    } else if reply.Done? || reply.Lost? {
      AfterKept(s, c, d);
    } else {
      KeptSame(s);
    }
  }

  lemma SendColumns(tasks: map<Id, Task>, effects: seq<Effect>, e: Effect)
    requires ColumnsOk(tasks, effects) && e.task in tasks
    requires Sent(effects, e.task, e.channel) == [] && Column(tasks[e.task], e.channel).Indeterminate?
    ensures ColumnsOk(tasks, effects + [e])
  {
    forall t, c ensures Sent(effects + [e], t, c) == Sent(effects, t, c)
      + (if e.task == t && e.channel == c then [e] else []) {
      SentAppend(effects, e, t, c);
    }
    forall t, c | t in tasks ensures Honest(Column(tasks[t], c), Sent(effects + [e], t, c), c) {
      assert Honest(Column(tasks[t], c), Sent(effects, t, c), c);
    }
  }

  /** A new effect of one task and channel leaves the active calls of every other pair as they were. */
  lemma SendCalls(db: Db, effects: seq<Effect>, e: Effect, calls: map<Id, Call>, sender: Id)
    requires CallsOk(db, effects, calls)
    requires forall k :: k in calls && k != sender ==> !Active(calls[k], e.task, e.channel)
    ensures CallsOk(db, effects + [e], Without(calls, sender))
  {
    forall k | k in Without(calls, sender) ensures CallOk(db, effects + [e], calls[k]) {
      assert CallOk(db, effects, calls[k]);
      if calls[k].Delivering? { SentAppend(effects, e, calls[k].task, calls[k].channel); }
    }
  }

  lemma RecordingOk(db: Db, effects: seq<Effect>, d: Call, e: Effect)
    requires d.Delivering? && d.stage.Sending? && CallOk(db, effects, d)
    requires e == Effect(d.task, d.channel, d.text, e.reply)
      && (e.reply.Accepted? || e.reply.Rejected? || e.reply.Indeterminate?)
    ensures CallOk(db, effects + [e], d.(stage := Recording(e.reply)))
  {
    SentAppend(effects, e, d.task, d.channel);
  }

  lemma SentCallsOk(db: Db, effects: seq<Effect>, calls: map<Id, Call>, c: Id, d: Call, e: Effect)
    requires CallsOk(db, effects, calls) && c in calls && calls[c] == d && d.Delivering? && d.stage.Sending?
    requires e == Effect(d.task, d.channel, d.text, e.reply)
      && (e.reply.Accepted? || e.reply.Rejected? || e.reply.Indeterminate?)
    ensures CallsOk(db, effects + [e], calls[c := d.(stage := Recording(e.reply))])
  {
    assert CallOk(db, effects, d) && Active(d, d.task, d.channel);
    RecordingOk(db, effects, d, e);
    SendCalls(db, effects, e, calls, c);
    CallsDrop(db, effects + [e], Without(calls, c), calls[c := d.(stage := Recording(e.reply))], c);
  }

  lemma Sends(s: System, c: Id, d: Call, status: Delivery)
    requires Invariant(s) && c in s.calls && s.calls[c] == d && d.Delivering? && d.stage.Sending?
    requires status.Accepted? || status.Rejected? || status.Indeterminate?
    ensures Kept(s, s.(effects := s.effects + [Effect(d.task, d.channel, d.text, status)],
      calls := s.calls[c := d.(stage := Recording(status))]))
  {
    var e := Effect(d.task, d.channel, d.text, status);
    assert CallOk(s.db, s.effects, d);
    SendColumns(s.db.tasks, s.effects, e);
    SentCallsOk(s.db, s.effects, s.calls, c, d, e);
    SendStep(s, s.(effects := s.effects + [e], calls := s.calls[c := d.(stage := Recording(status))]), e);
  }

  lemma AnswerSends(s: System, c: Id, d: Call, status: Delivery)
    requires d.Delivering? && d.stage.Sending? && d.text != CustomerText(Unprintable)
    ensures AdvanceDelivery(s, c, d, Answer(status))
         == s.(effects := s.effects + [Effect(d.task, d.channel, d.text, SafeStatus(status))],
               calls := s.calls[c := d.(stage := Recording(SafeStatus(status)))])
  {
  }

  lemma SendingKeeps(s: System, c: Id, reply: Reply)
    requires Invariant(s) && c in s.calls && s.calls[c].Delivering? && s.calls[c].stage.Sending?
    ensures Kept(s, AdvanceDelivery(s, c, s.calls[c], reply))
  {
    var d := s.calls[c];
    if reply.Answer? {
      assert TextOk(s.db, d.task, d.channel, d.text) by { assert CallOk(s.db, s.effects, d); }
      AnswerSends(s, c, d, reply.status);
      Sends(s, c, d, SafeStatus(reply.status));
    } else {
      KeptSame(s);
    }
  }

  lemma TextsAppend(db: Db, effects: seq<Effect>, e: Effect)
    requires TextsOk(db, effects) && TextOk(db, e.task, e.channel, e.text)
    ensures TextsOk(db, effects + [e])
  {
    forall i | 0 <= i < |effects + [e]|
      ensures TextOk(db, (effects + [e])[i].task, (effects + [e])[i].channel, (effects + [e])[i].text) {
      if i < |effects| { assert (effects + [e])[i] == effects[i]; }
    }
  }

  lemma GrowsSame(db: Db)
    ensures Grows(db, db)
  {
  }

  lemma SendStep(s: System, s': System, e: Effect)
    requires Invariant(s) && s' == s.(effects := s.effects + [e], calls := s'.calls)
    requires TextOk(s.db, e.task, e.channel, e.text)
    requires ColumnsOk(s.db.tasks, s'.effects) && CallsOk(s.db, s'.effects, s'.calls)
    ensures Kept(s, s')
  {
    TextsAppend(s.db, s.effects, e);
    GrowsSame(s.db);
  }

  lemma RecordingKeeps(s: System, c: Id, reply: Reply)
    requires Invariant(s) && c in s.calls && s.calls[c].Delivering? && s.calls[c].stage.Recording?
    ensures Kept(s, AdvanceDelivery(s, c, s.calls[c], reply))
  {
    var d := s.calls[c];
    var s' := AdvanceDelivery(s, c, d, reply);
    assert CallOk(s.db, s.effects, d);
    if reply.Done? || reply == Lost(true) {
      assert Active(d, d.task, d.channel);
      OneColumn(s.db, d.task, d.channel, d.stage.status);
      WriteCalls(s.db, d.task, d.channel, d.stage.status, s.effects, s.calls, c);
      TextStays(s.db, s'.db, d.task, d.channel, d.text);
      AfterOk(s'.db, s.effects, s.calls, c, d);
      WriteStep(s, s', d.task, d.channel, d.stage.status);
    } else if reply.Lost? {
      WithoutOk(s.db, s.effects, s.calls, c);
      AfterOk(s.db, s.effects, s.calls, c, d);
      CallsOnlyStep(s, s');
    } else {
      KeptSame(s);
    }
  }

  /** The text a lookup decides to send is allowed. */
  lemma NoticeAllowed(db: Db, t: Id)
    requires TasksOk(db) && CompletedTask(db, t) && db.tasks[t].booking in db.bookings
      && BookingInvariant(db.bookings[db.tasks[t].booking])
    requires var b := db.bookings[db.tasks[t].booking]; b.status.Confirmed? || b.status.Cancelled?
    ensures var b := db.bookings[db.tasks[t].booking];
      TextOk(db, t, Customer, CustomerText(StaffCustomerText(b.status, b.confirmedStart)))
  {
  }

  /** A call moves on without becoming active, and nothing else changes. */
  lemma CallMoves(s: System, c: Id, next: Call)
    requires Invariant(s) && c in s.calls && CallOk(s.db, s.effects, next)
      && (next.Delivering? ==> next.stage.Claiming?)
    ensures Kept(s, s.(calls := s.calls[c := next]))
  {
    CallsDrop(s.db, s.effects, s.calls, s.calls[c := next], c);
    CallsOnlyStep(s, s.(calls := s.calls[c := next]));
  }

  lemma CallEnds(s: System, c: Id)
    requires Invariant(s)
    ensures Kept(s, s.(calls := Without(s.calls, c)))
  {
    WithoutOk(s.db, s.effects, s.calls, c);
    CallsOnlyStep(s, s.(calls := Without(s.calls, c)));
  }

  lemma LookupSends(s: System, c: Id, t: Id)
    requires Invariant(s) && c in s.calls && CompletedTask(s.db, t) && s.db.tasks[t].booking in s.db.bookings
    requires var b := s.db.bookings[s.db.tasks[t].booking]; b.status.Confirmed? || b.status.Cancelled?
    ensures var b := s.db.bookings[s.db.tasks[t].booking];
            Kept(s, s.(calls :=
              s.calls[c := Delivering(t, Customer, CustomerText(StaffCustomerText(b.status, b.confirmedStart)),
                Claiming)]))
  {
    var b := s.db.bookings[s.db.tasks[t].booking];
    assert BookingInvariant(b);
    NoticeAllowed(s.db, t);
    CallMoves(s, c, Delivering(t, Customer, CustomerText(StaffCustomerText(b.status, b.confirmedStart)), Claiming));
  }

  lemma LookingUpKeeps(s: System, c: Id, reply: Reply)
    requires Invariant(s) && c in s.calls && s.calls[c].LookingUp?
    ensures Kept(s, AdvanceCall(s, c, reply))
  {
    var t := s.calls[c].task;
    assert CallOk(s.db, s.effects, s.calls[c]);
    if reply.Lost? {
      CallEnds(s, c);
    } else if !reply.Reachable? {
      KeptSame(s);
    } else if reply.routes && t in s.db.tasks && s.db.tasks[t].booking in s.db.bookings
              && (s.db.bookings[s.db.tasks[t].booking].status.Confirmed?
                   || s.db.bookings[s.db.tasks[t].booking].status.Cancelled?) {
      LookupSends(s, c, t);
    } else {
      CallMoves(s, c, MarkingUnavailable(t));
    }
  }

  lemma UnavailableWritten(s: System, c: Id, t: Id)
    requires Invariant(s) && c in s.calls && !s.calls[c].Delivering? && t in s.db.tasks
      && Column(s.db.tasks[t], Customer).NotSent?
    ensures Kept(s, s.(db := Written(s.db, t, Customer, Unavailable), calls := Without(s.calls, c)))
  {
    assert Honest(Column(s.db.tasks[t], Customer), Sent(s.effects, t, Customer), Customer);
    forall k | k in s.calls ensures !Active(s.calls[k], t, Customer) {
      UnclaimedIsIdle(s, t, Customer, k);
    }
    WriteCalls(s.db, t, Customer, Unavailable, s.effects, s.calls, c);
    WriteStep(s, s.(db := Written(s.db, t, Customer, Unavailable), calls := Without(s.calls, c)), t, Customer,
      Unavailable);
  }

  lemma MarkingUnavailableKeeps(s: System, c: Id, reply: Reply)
    requires Invariant(s) && c in s.calls && s.calls[c].MarkingUnavailable?
    ensures Kept(s, AdvanceCall(s, c, reply))
  {
    var t := s.calls[c].task;
    if reply.Done? || reply == Lost(true) {
      if t in s.db.tasks && Column(s.db.tasks[t], Customer).NotSent? {
        UnavailableWritten(s, c, t);
      } else {
        CallEnds(s, c);
      }
    } else if reply.Lost? {
      CallEnds(s, c);
    } else {
      KeptSame(s);
    }
  }

  lemma AdministerGrows(db: Db, db': Db)
    requires db' == db.(members := db'.members, bindings := db'.bindings, conversations := db'.conversations)
    ensures Grows(db, db') && SameColumns(db, db')
  {
  }

  lemma AdministerKeeps(s: System, members: seq<Member>, bindings: seq<StaffBinding>,
      conversations: map<Id, Conversation>)
    requires Invariant(s)
    ensures Kept(s, Apply(s, Administer(members, bindings, conversations)))
  {
    var s' := Apply(s, Administer(members, bindings, conversations));
    AdministerGrows(s.db, s'.db);
    CallsFrame(s.db, s'.db, s.effects, s.calls);
    TextsFrame(s.db, s'.db, s.effects);
    ClaimsFrame(s.db, s'.db, s.moves);
    TasksFrame(s.db, s'.db);
  }

  lemma StepKeeps(s: System, step: Step)
    requires Invariant(s)
    ensures Kept(s, Apply(s, step))
  {
    match step
    case CreateIntent(ctx, key, input, channelBindings, newId) =>
      CreateIntentKeeps(s, ctx, key, input, channelBindings, newId);
    case HttpTransition(ctx, booking, raw) => HttpTransitionKeeps(s, ctx, booking, raw);
    case Notify(call, app, ctx, booking, newTask) => NotifyKeeps(s, call, app, ctx, booking, newTask);
    case Callback(call, app, event) => CallbackKeeps(s, Apply(s, step), call, app, event);
    case Administer(members, bindings, conversations) => AdministerKeeps(s, members, bindings, conversations);
    case Crash(call) =>
      WithoutOk(s.db, s.effects, s.calls, call);
      CallsOnlyStep(s, Apply(s, step));
    case Advance(call, reply) =>
      if call !in s.calls {
        KeptSame(s);
      } else {
        match s.calls[call]
        case LookingUp(_) => LookingUpKeeps(s, call, reply);
        case MarkingUnavailable(_) => MarkingUnavailableKeeps(s, call, reply);
        case Delivering(_, _, _, Claiming) => ClaimingKeeps(s, call, reply);
        case Delivering(_, _, _, Sending) => SendingKeeps(s, call, reply);
        case Delivering(_, _, _, Recording(_)) => RecordingKeeps(s, call, reply);
      }
  }

  lemma {:induction false} RunKeeps(s: System, steps: seq<Step>)
    requires Invariant(s)
    ensures Kept(s, Run(s, steps))
    decreases |steps|
  {
    if steps == [] {
      KeptSame(s);
    } else {
      StepKeeps(s, steps[0]);
      RunKeeps(Apply(s, steps[0]), steps[1..]);
      GrowsTransitive(s.db, Apply(s, steps[0]).db, Run(s, steps).db);
    }
  }

  lemma Reachable(steps: seq<Step>)
    ensures Invariant(Run(Init, steps))
  {
    RunKeeps(Init, steps);
  }

  // The promises, over every interleaving of every number of calls, replays and crashes

  /** A claim as the moves committed on its behalf justify it. */
  ghost predicate Justified(t: Task, claim: Claim, mine: seq<Move>) {
    && !claim.state.Processing?
    && (claim.state.Completed? <==> |mine| == 1)
    && (claim.state.Failed? <==> mine == [])
    && (mine != [] ==>
          && mine[0].booking == t.booking
          && mine[0].before.version == t.expectedVersion
          && mine[0].after.version == t.expectedVersion + 1
          && mine[0].after.status == (if claim.payload.key.BookingConfirm? then Confirmed else Cancelled))
  }

  /** No committed claim is left processing, and a claim is completed exactly when its callback committed one move,
  of its own booking, from the version its card announced to the next. */
  lemma ClaimsAreSettled(steps: seq<Step>, k: (Id, Id))
    ensures k !in Run(Init, steps).db.claims ==> MovesBy(Run(Init, steps).moves, k) == []
    ensures k in Run(Init, steps).db.claims ==>
              && k.1 in Run(Init, steps).db.tasks
              && Justified(Run(Init, steps).db.tasks[k.1], Run(Init, steps).db.claims[k],
                   MovesBy(Run(Init, steps).moves, k))
  {
    Reachable(steps);
    var s := Run(Init, steps);
    ClaimIsSettled(s.db, s.moves, k);
  }

  lemma ClaimIsSettled(db: Db, moves: seq<Move>, k: (Id, Id))
    requires ClaimsOk(db, moves)
    ensures k !in db.claims ==> MovesBy(moves, k) == []
    ensures k in db.claims ==> k.1 in db.tasks && Justified(db.tasks[k.1], db.claims[k], MovesBy(moves, k))
  {
    if k in db.claims { assert ClaimOk(db, k, MovesBy(moves, k)); }
  }

  lemma {:induction false} InHistory(moves: seq<Move>, k: (Id, Id), m: Move)
    requires m in MovesBy(moves, k)
    ensures m.claim == Some(k) && m in MovesOf(moves, m.booking)
  {
    var last := moves[|moves| - 1];
    if m in MovesBy(moves[..|moves| - 1], k) { InHistory(moves[..|moves| - 1], k, m); }
  }

  /** A completed claim's callback made the first move of its booking. */
  lemma WinnerMovedFirst(db: Db, moves: seq<Move>, k: (Id, Id), b: Id) returns (m: Move)
    requires TasksOk(db) && ClaimOk(db, k, MovesBy(moves, k)) && db.claims[k].state.Completed?
      && b == db.tasks[k.1].booking
    requires Chain(MovesOf(moves, b), db.bookings[b])
    ensures m.claim == Some(k) && MovesOf(moves, b) != [] && m == MovesOf(moves, b)[0]
  {
    m := MovesBy(moves, k)[0];
    InHistory(moves, k, m);
    var i :| 0 <= i < |MovesOf(moves, b)| && MovesOf(moves, b)[i] == m;
    assert m.before.version == i + 1;
  }

  /** However many applications and cards compete for a booking, at most one staff callback ever moves it. */
  lemma OneWinnerPerBooking(steps: seq<Step>, k: (Id, Id), l: (Id, Id))
    requires var s := Run(Init, steps);
             && k in s.db.claims && l in s.db.claims && s.db.claims[k].state.Completed?
             && s.db.claims[l].state.Completed?
             && k.1 in s.db.tasks && l.1 in s.db.tasks && s.db.tasks[k.1].booking == s.db.tasks[l.1].booking
    ensures k == l
  {
    Reachable(steps);
    var s := Run(Init, steps);
    var b := s.db.tasks[k.1].booking;
    assert ClaimOk(s.db, k, MovesBy(s.moves, k)) && ClaimOk(s.db, l, MovesBy(s.moves, l));
    assert Chain(MovesOf(s.moves, b), s.db.bookings[b]);
    var m := WinnerMovedFirst(s.db, s.moves, k, b);
    var n := WinnerMovedFirst(s.db, s.moves, l, b);
  }

  /** A booking's version counts its committed transitions, of which there are at most three, and its status always
  carries the times it promises. */
  lemma BookingHistory(steps: seq<Step>, b: Id)
    requires b in Run(Init, steps).db.bookings
    ensures var s := Run(Init, steps);
            var row, moves := s.db.bookings[b], MovesOf(s.moves, b);
            && row.version - 1 == |moves| <= 3
            && (row.status.PendingConfirmation? <==> row.version == 1)
            && (forall i :: 0 <= i < |moves| ==> moves[i].before.version == i + 1 && moves[i].after.version == i + 2)
            && (row.status.Confirmed? ==> OrderedPair(row.confirmedStart, row.confirmedEnd))
            && (forall m :: m in moves && m.before.status.AlternativeProposed? && m.after.status.Confirmed? ==>
                  m.after.confirmedStart == m.before.alternativeStart
                    && m.after.confirmedEnd == m.before.alternativeEnd)
  {
    Reachable(steps);
    var s := Run(Init, steps);
    assert BookingInvariant(s.db.bookings[b]) && Chain(MovesOf(s.moves, b), s.db.bookings[b]);
  }

  lemma {:induction false} SentTwice(effects: seq<Effect>, t: Id, c: Channel, i: nat, j: nat)
    requires i < j < |effects|
    requires effects[i].task == t && effects[i].channel == c && effects[j].task == t && effects[j].channel == c
    ensures |Sent(effects, t, c)| >= 2
  {
    var init := effects[..|effects| - 1];
    if j < |init| {
      SentTwice(init, t, c, i, j);
    } else {
      SentOnce(init, t, c, i);
    }
  }

  lemma {:induction false} SentOnce(effects: seq<Effect>, t: Id, c: Channel, i: nat)
    requires i < |effects| && effects[i].task == t && effects[i].channel == c
    ensures |Sent(effects, t, c)| >= 1
  {
    if i < |effects| - 1 { SentOnce(effects[..|effects| - 1], t, c, i); }
  }

  /** Across retries and crashes, one booking is announced by at most one card per staff application. */
  lemma OneCardPerBooking(steps: seq<Step>, i: nat, j: nat)
    requires var s := Run(Init, steps);
             && i < |s.effects| && j < |s.effects| && s.effects[i].channel.Card? && s.effects[j].channel.Card?
             && s.effects[i].task in s.db.tasks && s.effects[j].task in s.db.tasks
             && s.db.tasks[s.effects[i].task].booking == s.db.tasks[s.effects[j].task].booking
             && s.db.tasks[s.effects[i].task].app == s.db.tasks[s.effects[j].task].app
    ensures i == j
  {
    Reachable(steps);
    var s := Run(Init, steps);
    var t := s.effects[i].task;
    assert t == s.effects[j].task;
    assert Honest(Column(s.db.tasks[t], Card), Sent(s.effects, t, Card), Card);
    if i < j { SentTwice(s.effects, t, Card, i, j); }
    if j < i { SentTwice(s.effects, t, Card, j, i); }
  }

  /** Each task has at most one card, one feedback update and one customer message, every effect belongs to a task,
  and a column names an answer only if that one call gave it. */
  lemma DeliveriesAreHonest(steps: seq<Step>, t: Id, c: Channel)
    ensures var s := Run(Init, steps);
            && |Sent(s.effects, t, c)| <= 1
            && (t !in s.db.tasks ==> Sent(s.effects, t, c) == [])
            && (t in s.db.tasks ==>
                  && (Column(s.db.tasks[t], c).NotSent? || Column(s.db.tasks[t], c).Unavailable?
                      ==> Sent(s.effects, t, c) == [])
                  && (Column(s.db.tasks[t], c).Accepted? || Column(s.db.tasks[t], c).Rejected? ==>
                        |Sent(s.effects, t, c)| == 1 && Sent(s.effects, t, c)[0].reply == Column(s.db.tasks[t], c)))
  {
    Reachable(steps);
    var s := Run(Init, steps);
    if t in s.db.tasks { assert Honest(Column(s.db.tasks[t], c), Sent(s.effects, t, c), c); }
  }

  /** A column that left not_sent never returns to it, and claims are never rewritten, whatever follows. */
  lemma ColumnsNeverReturn(steps: seq<Step>, more: seq<Step>, t: Id, c: Channel, k: (Id, Id))
    ensures var s, later := Run(Init, steps), Run(Run(Init, steps), more);
            && (t in s.db.tasks
                ==> t in later.db.tasks
                    && (Column(later.db.tasks[t], c).NotSent? ==> Column(s.db.tasks[t], c).NotSent?))
            && (k in s.db.claims ==> k in later.db.claims && later.db.claims[k] == s.db.claims[k])
  {
    Reachable(steps);
    RunKeeps(Run(Init, steps), more);
  }

  /** What the customer was told stays true: a confirmation names the start the booking still has, after any further
  steps, and a cancellation is final; both follow a completed staff claim. */
  lemma CustomerWasToldTheTruth(steps: seq<Step>, more: seq<Step>, i: nat)
    requires var s := Run(Init, steps); i < |s.effects| && s.effects[i].channel.Customer?
    ensures var e, later := Run(Init, steps).effects[i], Run(Run(Init, steps), more);
            && CompletedTask(later.db, e.task) && e.text.CustomerText?
            && later.db.tasks[e.task].booking in later.db.bookings
            && var b := later.db.bookings[later.db.tasks[e.task].booking];
               match e.text.notice
               case ConfirmedAt(start) =>
                 b.confirmedStart == Some(start) && (b.status.Confirmed? || b.status.Cancelled?)
               case CancelledNotice => b.status.Cancelled?
               case Unprintable => false
  {
    Reachable(steps);
    var s := Run(Init, steps);
    var e := s.effects[i];
    assert TextOk(s.db, e.task, e.channel, e.text);
    RunKeeps(s, more);
    TextStays(s.db, Run(s, more).db, e.task, e.channel, e.text);
  }

  /** The card feedback reports the claim it belongs to: a conflict exactly for a failed claim, otherwise the action
  that was committed and the version it produced. */
  lemma FeedbackReportsTheClaim(steps: seq<Step>, i: nat)
    requires var s := Run(Init, steps); i < |s.effects| && s.effects[i].channel.Feedback?
    ensures var s := Run(Init, steps);
            var e := s.effects[i];
            && e.task in s.db.tasks && e.text.FeedbackText?
            && var k := (s.db.tasks[e.task].app, e.task);
               && k in s.db.claims
               && (e.text.outcome.Conflict? <==> s.db.claims[k].state.Failed?)
               && (e.text.outcome.BookingConfirmed?
                   <==> s.db.claims[k].state.Completed? && s.db.claims[k].payload.key.BookingConfirm?)
               && (!e.text.outcome.Conflict?
                   ==> |MovesBy(s.moves, k)| == 1 && e.text.version == MovesBy(s.moves, k)[0].after.version)
  {
    Reachable(steps);
    var s := Run(Init, steps);
    var e := s.effects[i];
    assert TextOk(s.db, e.task, e.channel, e.text);
    ClaimsAreSettled(steps, (s.db.tasks[e.task].app, e.task));
  }

  lemma ClaimedIsDone(s: System, call: Id, app: Id, event: StaffEvent)
    requires (app, event.task) in s.db.claims
    ensures Apply(s, Callback(call, app, event)) == s
  {
  }

  /** Once a task has a claim, a callback for it, replayed or altered, changes nothing and starts nothing, whatever
  happened in between. */
  lemma ReplayChangesNothing(steps: seq<Step>, more: seq<Step>, call: Id, app: Id, event: StaffEvent)
    requires (app, event.task) in Run(Init, steps).db.claims
    ensures var s := Run(Run(Init, steps), more); Apply(s, Callback(call, app, event)) == s
  {
    ColumnsNeverReturn(steps, more, event.task, Card, (app, event.task));
    ClaimedIsDone(Run(Run(Init, steps), more), call, app, event);
  }

  /** A cancelled booking never changes again, and a confirmed one keeps its times. */
  lemma SettledStays(steps: seq<Step>, more: seq<Step>, b: Id)
    requires b in Run(Init, steps).db.bookings
    ensures var s, later := Run(Init, steps), Run(Run(Init, steps), more);
            && b in later.db.bookings
            && var row, after := s.db.bookings[b], later.db.bookings[b];
               && (row.status.Cancelled? ==> after == row)
               && (row.status.Confirmed? ==>
                     (after.status.Confirmed? || after.status.Cancelled?)
                     && after.confirmedStart == row.confirmedStart && after.confirmedEnd == row.confirmedEnd)
  {
    Reachable(steps);
    RunKeeps(Run(Init, steps), more);
    assert Later(Run(Init, steps).db.bookings[b], Run(Run(Init, steps), more).db.bookings[b]);
  }

  lemma {:induction false} MoveIndex(moves: seq<Move>, i: nat)
    requires i < |moves|
    ensures var mine, x := MovesOf(moves, moves[i].booking), |MovesOf(moves[..i], moves[i].booking)|;
            x < |mine| && mine[x] == moves[i]
  {
    if i < |moves| - 1 {
      MoveIndex(moves[..|moves| - 1], i);
      assert moves[..|moves| - 1][..i] == moves[..i];
    }
  }

  lemma {:induction false} MoveIndexRises(moves: seq<Move>, i: nat, j: nat)
    requires i < j <= |moves|
    ensures |MovesOf(moves[..i], moves[i].booking)| < |MovesOf(moves[..j], moves[i].booking)|
  {
    assert moves[..j][..j - 1] == moves[..j - 1];
    if i < j - 1 { MoveIndexRises(moves, i, j - 1); }
  }

  /** Of all requests and callbacks that name the same version of a booking, at most one ever moves it. */
  lemma OneMovePerVersion(steps: seq<Step>, i: nat, j: nat)
    requires var moves := Run(Init, steps).moves;
             && i <= j < |moves| && moves[i].booking == moves[j].booking
             && moves[i].before.version == moves[j].before.version
    ensures i == j
  {
    Reachable(steps);
    var s := Run(Init, steps);
    var b := s.moves[i].booking;
    MoveIndex(s.moves, i);
    MoveIndex(s.moves, j);
    ChainOf(s, b);
    if i < j { MoveIndexRises(s.moves, i, j); }
  }

  lemma ChainOf(s: System, b: Id)
    requires Invariant(s) && MovesOf(s.moves, b) != []
    ensures forall x :: 0 <= x < |MovesOf(s.moves, b)| ==> MovesOf(s.moves, b)[x].before.version == x + 1
  {
    assert b in s.db.bookings;
    assert Chain(MovesOf(s.moves, b), s.db.bookings[b]);
  }
}
