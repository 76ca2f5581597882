/** The rows behind the staff booking protocol and the transactions that change them
(src/channels/wecom/staff.ts, src/storeops/postgres.ts).

Every transaction is specified by a function on the whole database state; the class below performs it column by
column, rolling back on a refusal, and is proved to land exactly where the function says. */
module StaffDatabase {
  import opened Wrappers
  import opened BookingContracts
  import opened StoreOps

  datatype Delivery = NotSent | Accepted | Rejected | Indeterminate | Unavailable

  /** The three columns of a notification that record an external call. */
  datatype Channel = Card | Feedback | Customer

  /** A row of wecom_staff_booking_notifications; app stands for the corp and agent pair. */
  datatype Task = Task(
    booking: Id, tenant: Id, store: Id, app: Id, binding: Id, expectedVersion: nat,
    delivery: Delivery, feedback: Delivery, customer: Delivery)

  function Column(t: Task, c: Channel): Delivery {
    match c
    case Card => t.delivery
    case Feedback => t.feedback
    case Customer => t.customer
  }

  function WithColumn(t: Task, c: Channel, d: Delivery): Task {
    match c
    case Card => t.(delivery := d)
    case Feedback => t.(feedback := d)
    case Customer => t.(customer := d)
  }

  datatype EventKey = BookingConfirm | BookingCancel

  /** A verified card callback; its response code is not part of the payload hash. */
  datatype StaffEvent = StaffEvent(subject: Id, agent: Id, task: Id, key: EventKey)

  datatype ClaimState = Processing | Completed | Failed

  /** The row of wecom_inbound_messages under message id staff-booking:task. The stored SHA-256 is treated as
  injective, so the event itself stands for it. */
  datatype Claim = Claim(payload: StaffEvent, state: ClaimState)

  datatype StaffBinding = StaffBinding(id: Id, app: Id, subject: Id, member: Id, active: bool)

  datatype Identity = Identity(binding: Id, subject: Id, member: Member)

  datatype Conversation = Conversation(tenant: Id, store: Id, customer: Id)

  datatype Db = Db(
    members: seq<Member>, bindings: seq<StaffBinding>, conversations: map<Id, Conversation>,
    bookings: map<Id, Booking>, bookingKeys: map<(Id, Id, Id), Id>,
    tasks: map<Id, Task>, taskKeys: map<(Id, nat, Id), Id>,
    claims: map<(Id, Id), Claim>)

  function MemberById(members: seq<Member>, id: Id): Option<Member> {
    if members == [] then None
    else if members[0].id == id then Some(members[0])
    else MemberById(members[1..], id)
  }

  /** staffSelect: active bindings of the application whose member is its user's only membership. */
  function StaffIdentities(bindings: seq<StaffBinding>, members: seq<Member>, app: Id): seq<Identity> {
    if bindings == [] then []
    else
      var b := bindings[0];
      var m := MemberById(members, b.member);
      var rest := StaffIdentities(bindings[1..], members, app);
      if b.app == app && b.active && m.Some? && |RowsOf(members, m.value.user)| == 1
      then [Identity(b.id, b.subject, m.value)] + rest
      else rest
  }

  function OfSubject(rows: seq<Identity>, subject: Id): seq<Identity> {
    Where(rows, (r: Identity) => r.subject == subject)
  }

  function Managers(rows: seq<Identity>, tenant: Id, store: Id): seq<Identity> {
    Where(rows, (r: Identity) =>
      r.member.tenant == tenant && r.member.store == store && Grants(r.member.role, BookingIntentManage))
  }

  function OfMember(rows: seq<Identity>, member: Option<Id>): seq<Identity> {
    Where(rows, (r: Identity) => Some(r.member.id) == member)
  }

  /** The one recipient of a card: the preferred staff member when bound once, else the only bound manager. */
  function Recipient(rows: seq<Identity>, preferred: Option<Id>): Option<Identity> {
    var preferredRows := OfMember(rows, preferred);
    if |preferredRows| == 1 then Some(preferredRows[0])
    else if |preferredRows| == 0 && |rows| == 1 then Some(rows[0])
    else None
  }

  // Creating a booking intent

  datatype CreateInput = CreateInput(conversation: Id, service: Id, start: TimeField, end: TimeField,
    preferredStaff: Option<Id>)

  datatype Created = Created(id: Id, duplicate: bool)

  /** channelBindings are the distinct bindings of the conversation's inbound messages. */
  function CreateBooking(db: Db, ctx: Context, key: Id, input: CreateInput, channelBindings: seq<Id>, newId: Id)
    : Result<(Db, Created), StoreOpsError>
  {
    match Pair(input.start, input.end)
    case Err(e) => Err(e)
    case Ok((start, end)) =>
      var authority := Authority(db.members, ctx, BookingIntentCreate);
      if authority.None? then Err(Forbidden)
      else if input.conversation !in db.conversations || db.conversations[input.conversation].tenant != ctx.tenant
              || db.conversations[input.conversation].store != ctx.store then Err(NotFound)
      else if input.preferredStaff.Some? && !ScopedStaff(db.members, ctx, input.preferredStaff.value) then Err(NotFound)
      else if |channelBindings| > 1 then Err(BookingIntentConflict)
      else
        var binding := if channelBindings == [] then None else Some(channelBindings[0]);
        var request := CreateRequest(input.conversation, input.service, start, end, input.preferredStaff, binding,
          authority.value.id);
        var index := (ctx.tenant, ctx.store, key);
        if index !in db.bookingKeys then
          var row := Booking(ctx.tenant, ctx.store, input.conversation, db.conversations[input.conversation].customer,
                             start, end, input.preferredStaff, PendingConfirmation, None, None, None, None,
                             authority.value.id, request, 1);
          Ok((db.(bookings := db.bookings[newId := row], bookingKeys := db.bookingKeys[index := newId]),
            Created(newId, false)))
        else
          var id := db.bookingKeys[index];
          if id !in db.bookings || db.bookings[id].createHash != request then Err(BookingIntentConflict)
          else Ok((db, Created(id, true)))
  }

  // Announcing a booking to staff

  datatype Prepared = NoRecipient | AlreadyNotified | Insert(task: Id)

  function PrepareNotification(db: Db, app: Id, ctx: Context, booking: Id, newTask: Id)
    : Result<(Db, Prepared), StoreOpsError>
  {
    if Authority(db.members, ctx, BookingIntentCreate).None? then Err(Forbidden)
    else if booking !in db.bookings || db.bookings[booking].tenant != ctx.tenant
      || db.bookings[booking].store != ctx.store then Err(NotFound)
    else
      var b := db.bookings[booking];
      if !b.status.PendingConfirmation? then Ok((db, NoRecipient))
      else
        var recipient := Recipient(Managers(StaffIdentities(db.bindings, db.members, app), ctx.tenant, ctx.store),
          b.preferredStaff);
        var index := (booking, b.version, app);
        if recipient.None? then Ok((db, NoRecipient))
        else if index in db.taskKeys then Ok((db, AlreadyNotified))
        else
          var row := Task(booking, b.tenant, b.store, app, recipient.value.binding, b.version, Indeterminate, NotSent,
            NotSent);
          Ok((db.(tasks := db.tasks[newTask := row], taskKeys := db.taskKeys[index := newTask]), Insert(newTask)))
  }

  // Answering a card

  datatype StaffOutcome = BookingConfirmed | BookingCancelled | Conflict

  datatype Handled = Duplicate | Settled(outcome: StaffOutcome, version: nat)

  function AsField(t: Option<Instant>): TimeField { if t.Some? then At(t.value) else Absent }

  /** The transition request the callback makes on behalf of the staff member. */
  function StaffRequest(key: EventKey, t: Task, b: Booking): RawTransition {
    if key.BookingConfirm? then
      RawTransition(t.expectedVersion, Confirm, AsField(b.requestedStart), AsField(b.requestedEnd))
    else RawTransition(t.expectedVersion, Cancel, Absent, Absent)
  }

  function HandleCallback(db: Db, app: Id, event: StaffEvent): Result<(Db, Handled), StoreOpsError> {
    var rows := OfSubject(StaffIdentities(db.bindings, db.members, app), event.subject);
    if event.agent != app then Err(InvalidRequest)
    else if |rows| != 1 || !Grants(rows[0].member.role, BookingIntentManage) then Err(Forbidden)
    else
      var identity, ctx := rows[0], ContextFor(rows[0].member);
      if event.task !in db.tasks then Err(NotFound)
      else
        var t := db.tasks[event.task];
        if t.app != app || t.tenant != ctx.tenant || t.store != ctx.store || t.binding != identity.binding then
          Err(NotFound)
        else if t.delivery.Rejected? then Err(Forbidden)
        else if (app, event.task) in db.claims then
          if db.claims[(app, event.task)].payload != event then Err(BookingIntentConflict) else Ok((db, Duplicate))
        else SettleClaim(db, app, event, t, ctx)
  }

  /** The claim is new: it is settled with the booking it moves, or fails because the booking has moved on. */
  function SettleClaim(db: Db, app: Id, event: StaffEvent, t: Task, ctx: Context): Result<(Db, Handled), StoreOpsError>
  {
    if t.booking !in db.bookings || db.bookings[t.booking].tenant != ctx.tenant
      || db.bookings[t.booking].store != ctx.store then
      Err(NotFound)
    else
      var b := db.bookings[t.booking];
      if b.version != t.expectedVersion || !b.status.PendingConfirmation? then
        Ok((db.(claims := db.claims[(app, event.task) := Claim(event, Failed)]), Settled(Conflict, b.version)))
      else if event.key.BookingConfirm? && (b.requestedStart.None? || b.requestedEnd.None?) then Err(InvalidRequest)
      else
        match Transition(db.members, db.bookings, ctx, t.booking, StaffRequest(event.key, t, b))
        case Err(e) => Err(e)
        case Ok(after) =>
          Ok((db.(bookings := db.bookings[t.booking := after],
                  claims := db.claims[(app, event.task) := Claim(event, Completed)]),
              Settled(if after.status.Confirmed? then BookingConfirmed else BookingCancelled, b.version + 1)))
  }

  // The answers of a callback, read off the event and the rows

  /** The binding is an active one of the application for m, whose user has no other membership. */
  ghost predicate Speaks(members: seq<Member>, app: Id, b: StaffBinding, m: Member) {
    && b.app == app && b.active
    && exists j: nat :: Sits(members, m.user, j) && members[j] == m && First(members, b.member, j)
  }

  predicate First(members: seq<Member>, id: Id, j: nat) {
    j < |members| && members[j].id == id && forall k :: 0 <= k < j ==> members[k].id != id
  }

  /** The only binding of the application that speaks for somebody and satisfies p is the i-th, and it speaks for m. */
  ghost predicate Only(bindings: seq<StaffBinding>, members: seq<Member>, app: Id, p: (StaffBinding, Member) -> bool,
      i: nat, m: Member)
  {
    && i < |bindings| && Speaks(members, app, bindings[i], m) && p(bindings[i], m)
    && forall k, n :: 0 <= k < |bindings| && Speaks(members, app, bindings[k], n) && p(bindings[k], n) ==> k == i
  }

  /** The event comes through the one binding of a manager. */
  ghost predicate Manages(db: Db, app: Id, event: StaffEvent, i: nat, m: Member) {
    && event.agent == app && !m.role.Agent?
    && Only(db.bindings, db.members, app, (b: StaffBinding, n: Member) => b.subject == event.subject, i, m)
  }

  /** The card was sent through that binding, in the manager's store. */
  predicate Theirs(db: Db, app: Id, event: StaffEvent, i: nat, m: Member)
    requires i < |db.bindings|
  {
    && event.task in db.tasks
    && var t := db.tasks[event.task];
       t.app == app && t.tenant == m.tenant && t.store == m.store && t.binding == db.bindings[i].id
  }

  ghost predicate Admitted(db: Db, app: Id, event: StaffEvent) {
    && event.task in db.tasks && !db.tasks[event.task].delivery.Rejected?
    && exists i: nat, m :: Manages(db, app, event, i, m) && Theirs(db, app, event, i, m)
  }

  /** The first event for its card, about a booking that is there. */
  ghost predicate Opens(db: Db, app: Id, event: StaffEvent) {
    && Admitted(db, app, event) && (app, event.task) !in db.claims
    && var t := db.tasks[event.task];
       t.booking in db.bookings && db.bookings[t.booking].tenant == t.tenant && db.bookings[t.booking].store == t.store
  }

  /** The booking is still the pending one that the card announced. */
  ghost predicate Timely(db: Db, app: Id, event: StaffEvent) {
    && Opens(db, app, event)
    && var t := db.tasks[event.task];
       db.bookings[t.booking].version == t.expectedVersion && db.bookings[t.booking].status.PendingConfirmation?
  }

  /** A confirmation needs the times that the customer asked for. */
  predicate Answerable(t: Task, b: Booking, key: EventKey) {
    && 1 <= t.expectedVersion <= MAX_SAFE_INTEGER
    && (key.BookingConfirm? ==> OrderedPair(b.requestedStart, b.requestedEnd))
  }

  ghost predicate Moves(db: Db, app: Id, event: StaffEvent) {
    && Timely(db, app, event)
    && var t := db.tasks[event.task];
       Answerable(t, db.bookings[t.booking], event.key) && StaffThere(db.members, db.bookings[t.booking])
  }

  /** The booking as the manager left it. */
  function Answered(b: Booking, key: EventKey): Booking {
    match key
    case BookingConfirm => b.(status := Confirmed, confirmedStart := b.requestedStart, confirmedEnd := b.requestedEnd,
                              version := b.version + 1)
    case BookingCancel => b.(status := Cancelled, version := b.version + 1)
  }

  /** Each answer is given exactly for its reason. An event that equals the claim is a duplicate and one that differs a
  conflict; a new one claims its card, as completed with the booking moved, or as failed if that has moved on; and
  nothing else changes a row. */
  ghost predicate CallbackAnswered(db: Db, after: Db, app: Id, event: StaffEvent, r: Result<Handled, StoreOpsError>) {
    && (r == Ok(Duplicate) <==>
          Admitted(db, app, event) && (app, event.task) in db.claims && db.claims[(app, event.task)].payload == event)
    && (r == Err(BookingIntentConflict) <==>
          Admitted(db, app, event) && (app, event.task) in db.claims && db.claims[(app, event.task)].payload != event)
    && (r == Err(InvalidRequest) <==>
          || event.agent != app
          || (Timely(db, app, event)
              && !Answerable(db.tasks[event.task], db.bookings[db.tasks[event.task].booking], event.key)))
    && (r == Err(Forbidden) <==>
          && event.agent == app
          && (|| (forall i: nat, m :: !Manages(db, app, event, i, m))
              || (exists i: nat, m :: && Manages(db, app, event, i, m) && Theirs(db, app, event, i, m)
                                      && db.tasks[event.task].delivery.Rejected?)))
    && (r == Err(NotFound) <==>
          || (exists i: nat, m :: Manages(db, app, event, i, m) && !Theirs(db, app, event, i, m))
          || (Admitted(db, app, event) && (app, event.task) !in db.claims && !Opens(db, app, event))
          || (Timely(db, app, event) && !Moves(db, app, event)
              && Answerable(db.tasks[event.task], db.bookings[db.tasks[event.task].booking], event.key)))
    && r != Err(AvailabilityConflict) && r != Err(DependencyUnavailable)
    && (r.Ok? && r.value.Settled? <==>
          Moves(db, app, event) || (Opens(db, app, event) && !Timely(db, app, event)))
    && (r.Ok? && r.value.Settled? ==>
          CallbackSettled(db, after, app, event, db.tasks[event.task], r.value.outcome, r.value.version))
    && (!(r.Ok? && r.value.Settled?) ==> after == db)
  }

  ghost predicate CallbackSettled(db: Db, after: Db, app: Id, event: StaffEvent, t: Task, outcome: StaffOutcome,
      version: nat)
  {
    && t.booking in db.bookings
    && var b := db.bookings[t.booking];
       if Moves(db, app, event) then
         && outcome == (if event.key.BookingConfirm? then BookingConfirmed else BookingCancelled)
         && version == b.version + 1
         && after == db.(bookings := db.bookings[t.booking := Answered(b, event.key)],
                         claims := db.claims[(app, event.task) := Claim(event, Completed)])
       else
         && outcome == Conflict && version == b.version
         && after == db.(claims := db.claims[(app, event.task) := Claim(event, Failed)])
  }

  lemma {:induction false} FirstIsFound(members: seq<Member>, id: Id, j: nat)
    requires First(members, id, j)
    ensures MemberById(members, id) == Some(members[j])
  {
    if j > 0 {
      assert members[0].id != id;
      FirstIsFound(members[1..], id, j - 1);
    }
  }

  lemma {:induction false} FoundIsFirst(members: seq<Member>, id: Id) returns (j: nat)
    requires MemberById(members, id).Some?
    ensures First(members, id, j)
  {
    if members[0].id == id {
      j := 0;
    } else {
      var i := FoundIsFirst(members[1..], id);
      j := i + 1;
      forall k | 0 <= k < j ensures members[k].id != id {
        if k > 0 { assert members[1..][k - 1].id != id; }
      }
    }
  }

  /** What staffSelect asks of a binding. */
  predicate Selects(members: seq<Member>, app: Id, b: StaffBinding) {
    && b.app == app && b.active && MemberById(members, b.member).Some?
    && |RowsOf(members, MemberById(members, b.member).value.user)| == 1
  }

  lemma SelectsExactly(members: seq<Member>, app: Id, b: StaffBinding, m: Member)
    ensures Selects(members, app, b) && MemberById(members, b.member).value == m <==> Speaks(members, app, b, m)
  {
    if Selects(members, app, b) && MemberById(members, b.member).value == m {
      var j := FoundIsFirst(members, b.member);
      FirstIsFound(members, b.member, j);
      var i := OneRowSits(members, m.user);
      assert members[j].user == m.user;
    }
    if Speaks(members, app, b, m) {
      var j: nat :| Sits(members, m.user, j) && members[j] == m && First(members, b.member, j);
      FirstIsFound(members, b.member, j);
      SitsAlone(members, m.user, j);
    }
  }

  function IdentityOf(members: seq<Member>, b: StaffBinding): Identity
    requires MemberById(members, b.member).Some?
  {
    Identity(b.id, b.subject, MemberById(members, b.member).value)
  }

  /** The rows of staffSelect that satisfy a further condition. */
  function Rows(bindings: seq<StaffBinding>, members: seq<Member>, app: Id, p: Identity -> bool): seq<Identity> {
    Where(StaffIdentities(bindings, members, app), p)
  }

  /** The k-th binding gives such a row. */
  ghost predicate Bound(bindings: seq<StaffBinding>, members: seq<Member>, app: Id, p: Identity -> bool, k: nat) {
    k < |bindings| && Selects(members, app, bindings[k]) && p(IdentityOf(members, bindings[k]))
  }

  lemma RowsStep(bindings: seq<StaffBinding>, members: seq<Member>, app: Id, p: Identity -> bool)
    requires bindings != []
    ensures Rows(bindings, members, app, p)
         == (if Bound(bindings, members, app, p, 0) then [IdentityOf(members, bindings[0])] else [])
            + Rows(bindings[1..], members, app, p)
    ensures forall k: nat :: Bound(bindings, members, app, p, k + 1) <==> Bound(bindings[1..], members, app, p, k)
  {
    if Selects(members, app, bindings[0]) {
      var rest := StaffIdentities(bindings[1..], members, app);
      assert StaffIdentities(bindings, members, app) == [IdentityOf(members, bindings[0])] + rest;
      assert ([IdentityOf(members, bindings[0])] + rest)[1..] == rest;
    } else {
      assert StaffIdentities(bindings, members, app) == StaffIdentities(bindings[1..], members, app);
    }
  }

  lemma {:induction false} UnboundHasNoRows(bindings: seq<StaffBinding>, members: seq<Member>, app: Id,
      p: Identity -> bool)
    ensures Rows(bindings, members, app, p) == [] <==> forall k: nat :: !Bound(bindings, members, app, p, k)
  {
    if bindings != [] {
      RowsStep(bindings, members, app, p);
      UnboundHasNoRows(bindings[1..], members, app, p);
      forall k: nat | k > 0
        ensures Bound(bindings, members, app, p, k) <==> Bound(bindings[1..], members, app, p, k - 1)
      {
        assert Bound(bindings, members, app, p, (k - 1) + 1) <==> Bound(bindings[1..], members, app, p, k - 1);
      }
    }
  }

  ghost predicate BoundOnce(bindings: seq<StaffBinding>, members: seq<Member>, app: Id, p: Identity -> bool, i: nat) {
    Bound(bindings, members, app, p, i) && forall k: nat :: Bound(bindings, members, app, p, k) ==> k == i
  }

  lemma {:induction false} BoundOnceHasItsRow(bindings: seq<StaffBinding>, members: seq<Member>, app: Id,
      p: Identity -> bool, i: nat)
    requires BoundOnce(bindings, members, app, p, i)
    ensures Rows(bindings, members, app, p) == [IdentityOf(members, bindings[i])]
  {
    RowsStep(bindings, members, app, p);
    if i == 0 {
      UnboundHasNoRows(bindings[1..], members, app, p);
    } else {
      assert !Bound(bindings, members, app, p, 0);
      assert Bound(bindings, members, app, p, (i - 1) + 1);
      BoundOnceHasItsRow(bindings[1..], members, app, p, i - 1);
    }
  }

  lemma {:induction false} OneRowIsBound(bindings: seq<StaffBinding>, members: seq<Member>, app: Id,
      p: Identity -> bool)
    returns (i: nat)
    requires |Rows(bindings, members, app, p)| == 1
    ensures BoundOnce(bindings, members, app, p, i)
  {
    RowsStep(bindings, members, app, p);
    if Bound(bindings, members, app, p, 0) {
      i := 0;
      UnboundHasNoRows(bindings[1..], members, app, p);
    } else {
      var n := OneRowIsBound(bindings[1..], members, app, p);
      i := n + 1;
    }
    forall k: nat | k > 0
      ensures Bound(bindings, members, app, p, k) <==> Bound(bindings[1..], members, app, p, k - 1)
    {
      assert Bound(bindings, members, app, p, (k - 1) + 1) <==> Bound(bindings[1..], members, app, p, k - 1);
    }
  }

  lemma OnlyIsBoundOnce(bindings: seq<StaffBinding>, members: seq<Member>, app: Id, q: (StaffBinding, Member) -> bool,
      p: Identity -> bool, i: nat, m: Member)
    requires forall b: StaffBinding, n :: q(b, n) <==> p(Identity(b.id, b.subject, n))
    ensures Only(bindings, members, app, q, i, m) <==>
              BoundOnce(bindings, members, app, p, i) && MemberById(members, bindings[i].member) == Some(m)
  {
    if Only(bindings, members, app, q, i, m) {
      SelectsExactly(members, app, bindings[i], m);
      forall k: nat | Bound(bindings, members, app, p, k) ensures k == i {
        SelectsExactly(members, app, bindings[k], MemberById(members, bindings[k].member).value);
      }
    }
    if BoundOnce(bindings, members, app, p, i) && MemberById(members, bindings[i].member) == Some(m) {
      SelectsExactly(members, app, bindings[i], m);
      forall k, n | 0 <= k < |bindings| && Speaks(members, app, bindings[k], n) && q(bindings[k], n) ensures k == i {
        SelectsExactly(members, app, bindings[k], n);
        assert Bound(bindings, members, app, p, k);
      }
    }
  }

  /** There is one such row exactly if there is one such binding, and the row is the binding's. */
  lemma OneRowIsOnly(bindings: seq<StaffBinding>, members: seq<Member>, app: Id, q: (StaffBinding, Member) -> bool,
      p: Identity -> bool) returns (i: nat)
    requires forall b: StaffBinding, n :: q(b, n) <==> p(Identity(b.id, b.subject, n))
    ensures var rows := Rows(bindings, members, app, p);
            && (|rows| == 1 ==> i < |bindings| && rows[0].binding == bindings[i].id)
            && forall k: nat, n :: Only(bindings, members, app, q, k, n) <==>
                                     |rows| == 1 && k == i && n == rows[0].member
  {
    var rows := Rows(bindings, members, app, p);
    i := 0;
    if |rows| == 1 {
      i := OneRowIsBound(bindings, members, app, p);
      BoundOnceHasItsRow(bindings, members, app, p, i);
    }
    forall k: nat, n ensures Only(bindings, members, app, q, k, n) <==> |rows| == 1 && k == i && n == rows[0].member {
      OnlyIsBoundOnce(bindings, members, app, q, p, k, n);
      if BoundOnce(bindings, members, app, p, k) { BoundOnceHasItsRow(bindings, members, app, p, k); }
    }
  }

  /** A manager speaks through it exactly if the callback admits its row. */
  lemma CallerIsExact(db: Db, app: Id, event: StaffEvent) returns (i: nat)
    ensures var rows := OfSubject(StaffIdentities(db.bindings, db.members, app), event.subject);
            if event.agent == app && |rows| == 1 && Grants(rows[0].member.role, BookingIntentManage)
            then i < |db.bindings| && rows[0].binding == db.bindings[i].id
                 && forall k: nat, n :: Manages(db, app, event, k, n) <==> k == i && n == rows[0].member
            else forall k: nat, n :: !Manages(db, app, event, k, n)
  {
    i := OneRowIsOnly(db.bindings, db.members, app, (b: StaffBinding, n: Member) => b.subject == event.subject,
                      (r: Identity) => r.subject == event.subject);
  }

  lemma ManagerIsAuthorized(db: Db, app: Id, event: StaffEvent, i: nat, m: Member)
    requires Manages(db, app, event, i, m)
    ensures Authority(db.members, ContextFor(m), BookingIntentManage) == Some(m)
    ensures Authority(db.members, ContextFor(m), BookingIntentCreate) == Some(m)
  {
    var j: nat :| Sits(db.members, m.user, j) && db.members[j] == m && First(db.members, db.bindings[i].member, j);
    SitsAlone(db.members, m.user, j);
  }

  /** Past the claim: settled, or refused with nothing changed, each for its reason. */
  lemma SettleIsAnswered(db: Db, app: Id, event: StaffEvent, i: nat, m: Member)
    requires Manages(db, app, event, i, m) && Theirs(db, app, event, i, m) && Admitted(db, app, event)
    requires (app, event.task) !in db.claims
    ensures var t := db.tasks[event.task];
            match SettleClaim(db, app, event, t, ContextFor(m))
            case Ok((after, handled)) =>
              && handled.Settled? && (Moves(db, app, event) || (Opens(db, app, event) && !Timely(db, app, event)))
              && CallbackSettled(db, after, app, event, t, handled.outcome, handled.version)
            case Err(e) =>
              if e.NotFound? then
                || !Opens(db, app, event)
                || (Timely(db, app, event) && !Moves(db, app, event)
                    && Answerable(t, db.bookings[t.booking], event.key))
              else e.InvalidRequest? && Timely(db, app, event) && !Answerable(t, db.bookings[t.booking], event.key)
  {
    ManagerIsAuthorized(db, app, event, i, m);
  }

  lemma CallbackIsAnswered(db: Db, app: Id, event: StaffEvent)
    ensures match HandleCallback(db, app, event)
            case Ok((after, handled)) => CallbackAnswered(db, after, app, event, Ok(handled))
            case Err(e) => CallbackAnswered(db, db, app, event, Err(e))
  {
    var i := CallerIsExact(db, app, event);
    var rows := OfSubject(StaffIdentities(db.bindings, db.members, app), event.subject);
    if event.agent == app && |rows| == 1 && Grants(rows[0].member.role, BookingIntentManage) {
      assert Manages(db, app, event, i, rows[0].member);
      if Theirs(db, app, event, i, rows[0].member) && !db.tasks[event.task].delivery.Rejected?
        && (app, event.task) !in db.claims
      {
        SettleIsAnswered(db, app, event, i, rows[0].member);
      }
    }
  }

  // The answers of the other transactions

  /** The time of a field, if it has one. */
  predicate Reads(t: Option<Instant>, field: TimeField) { if field.At? then t == Some(field.at) else t.None? }

  /** What the idempotency key was, or is, spent on. */
  predicate AskedFor(h: CreateRequest, input: CreateInput, channelBindings: seq<Id>, m: Member) {
    && h.conversation == input.conversation && h.service == input.service && h.actor == m.id
    && Reads(h.start, input.start) && Reads(h.end, input.end) && h.preferredStaff == input.preferredStaff
    && (h.channelBinding.Some? <==> channelBindings != [])
    && (channelBindings != [] ==> h.channelBinding == Some(channelBindings[0]))
  }

  /** A new row: pending at version 1, for the conversation's customer, without any time but the requested ones. */
  predicate NewBooking(db: Db, ctx: Context, input: CreateInput, m: Member, b: Booking) {
    && input.conversation in db.conversations
    && b.tenant == ctx.tenant && b.store == ctx.store && b.conversation == input.conversation
    && b.customer == db.conversations[input.conversation].customer
    && Reads(b.requestedStart, input.start) && Reads(b.requestedEnd, input.end)
    && b.preferredStaff == input.preferredStaff
    && b.status.PendingConfirmation? && b.version == 1 && b.createdBy == m.id
    && b.alternativeStart.None? && b.alternativeEnd.None? && b.confirmedStart.None? && b.confirmedEnd.None?
  }

  predicate ConversationThere(db: Db, ctx: Context, input: CreateInput) {
    && input.conversation in db.conversations
    && db.conversations[input.conversation].tenant == ctx.tenant
    && db.conversations[input.conversation].store == ctx.store
    && (input.preferredStaff.Some? ==>
          exists m :: m in db.members && m.id == input.preferredStaff.value && m.tenant == ctx.tenant
                      && m.store == ctx.store)
  }

  /** The key is free, or was spent on a booking by the same request. */
  predicate KeyFits(db: Db, ctx: Context, key: Id, input: CreateInput, channelBindings: seq<Id>, m: Member) {
    var index := (ctx.tenant, ctx.store, key);
    index in db.bookingKeys ==>
      && db.bookingKeys[index] in db.bookings
      && AskedFor(db.bookings[db.bookingKeys[index]].createHash, input, channelBindings, m)
  }

  /** Each answer of a creation has its reason, and a key is spent on one booking. */
  ghost predicate CreateAnswered(db: Db, after: Db, ctx: Context, key: Id, input: CreateInput,
      channelBindings: seq<Id>, newId: Id, r: Result<Created, StoreOpsError>)
  {
    && (r == Err(InvalidRequest) <==> !TimesSound(input.start, input.end))
    && (r == Err(Forbidden) <==>
          TimesSound(input.start, input.end) && forall m :: !Authorized(db.members, ctx, BookingIntentCreate, m))
    && (r == Err(NotFound) <==>
          && TimesSound(input.start, input.end) && !ConversationThere(db, ctx, input)
          && exists m :: Authorized(db.members, ctx, BookingIntentCreate, m))
    && (r == Err(BookingIntentConflict) <==>
          && TimesSound(input.start, input.end) && ConversationThere(db, ctx, input)
          && exists m :: && Authorized(db.members, ctx, BookingIntentCreate, m)
                         && (|channelBindings| > 1 || !KeyFits(db, ctx, key, input, channelBindings, m)))
    && r != Err(AvailabilityConflict) && r != Err(DependencyUnavailable)
    && (r.Err? ==> after == db)
    && (r.Ok? ==> CreateCommitted(db, after, ctx, key, input, channelBindings, newId, r.value))
  }

  ghost predicate CreateCommitted(db: Db, after: Db, ctx: Context, key: Id, input: CreateInput,
      channelBindings: seq<Id>, newId: Id, created: Created)
  {
    var index := (ctx.tenant, ctx.store, key);
    && (created.duplicate <==> index in db.bookingKeys)
    && (created.duplicate ==> created.id == db.bookingKeys[index] && after == db)
    && (!created.duplicate ==>
          && created.id == newId && newId in after.bookings
          && (exists m :: && Authorized(db.members, ctx, BookingIntentCreate, m)
                          && NewBooking(db, ctx, input, m, after.bookings[newId])
                          && AskedFor(after.bookings[newId].createHash, input, channelBindings, m))
          && after == db.(bookings := db.bookings[newId := after.bookings[newId]],
                          bookingKeys := db.bookingKeys[index := newId]))
  }

  lemma AuthorityOrNobody(members: seq<Member>, ctx: Context, capability: Capability)
    ensures var a := Authority(members, ctx, capability);
            if a.Some? then forall m :: Authorized(members, ctx, capability, m) <==> m == a.value
            else forall m :: !Authorized(members, ctx, capability, m)
  {
    forall m ensures Authority(members, ctx, capability) == Some(m) <==> Authorized(members, ctx, capability, m) {
      AuthorityIsExact(members, ctx, capability, m);
    }
  }

  lemma CreateIsAnswered(db: Db, ctx: Context, key: Id, input: CreateInput, channelBindings: seq<Id>, newId: Id)
    ensures match CreateBooking(db, ctx, key, input, channelBindings, newId)
            case Ok((after, created)) => CreateAnswered(db, after, ctx, key, input, channelBindings, newId, Ok(created))
            case Err(e) => CreateAnswered(db, db, ctx, key, input, channelBindings, newId, Err(e))
  {
    AuthorityOrNobody(db.members, ctx, BookingIntentCreate);
    var a := Authority(db.members, ctx, BookingIntentCreate);
    if a.Some? { assert Authorized(db.members, ctx, BookingIntentCreate, a.value); }
  }

  /** The binding and manager that a card goes to: the preferred member's one binding, or without any such binding the
  only one of a manager of the store. */
  ghost predicate Addressee(db: Db, app: Id, tenant: Id, store: Id, preferred: Option<Id>, i: nat, m: Member) {
    var chosen := ByChoice(tenant, store, preferred);
    || Only(db.bindings, db.members, app, chosen, i, m)
    || (&& Only(db.bindings, db.members, app, ByManager(tenant, store), i, m)
        && forall k, n :: 0 <= k < |db.bindings| && Speaks(db.members, app, db.bindings[k], n) ==>
                            !chosen(db.bindings[k], n))
  }

  function ByManager(tenant: Id, store: Id): (StaffBinding, Member) -> bool {
    (b: StaffBinding, n: Member) => n.tenant == tenant && n.store == store && !n.role.Agent?
  }

  function ByChoice(tenant: Id, store: Id, preferred: Option<Id>): (StaffBinding, Member) -> bool {
    (b: StaffBinding, n: Member) => n.tenant == tenant && n.store == store && !n.role.Agent? && preferred == Some(n.id)
  }

  lemma NoRowIsNobody(bindings: seq<StaffBinding>, members: seq<Member>, app: Id, q: (StaffBinding, Member) -> bool,
      p: Identity -> bool)
    requires forall b: StaffBinding, n :: q(b, n) <==> p(Identity(b.id, b.subject, n))
    ensures Rows(bindings, members, app, p) == [] <==>
              forall k, n :: 0 <= k < |bindings| && Speaks(members, app, bindings[k], n) ==> !q(bindings[k], n)
  {
    UnboundHasNoRows(bindings, members, app, p);
    if Rows(bindings, members, app, p) == [] {
      forall k, n | 0 <= k < |bindings| && Speaks(members, app, bindings[k], n) ensures !q(bindings[k], n) {
        SelectsExactly(members, app, bindings[k], n);
        assert !Bound(bindings, members, app, p, k);
      }
    } else {
      var k: nat :| Bound(bindings, members, app, p, k);
      SelectsExactly(members, app, bindings[k], MemberById(members, bindings[k].member).value);
    }
  }

  /** The recipient, from the rows of the preferred member and of all managers. */
  lemma RecipientRows(rows: seq<Identity>, tenant: Id, store: Id, preferred: Option<Id>)
    ensures var all := Where(rows, ManagerOf(tenant, store));
            var chosen := Where(rows, ChosenOf(tenant, store, preferred));
            Recipient(Managers(rows, tenant, store), preferred)
            == if |chosen| == 1 then Some(chosen[0]) else if |chosen| == 0 && |all| == 1 then Some(all[0]) else None
  {
    var isMember := (r: Identity) => Some(r.member.id) == preferred;
    WhereSame(rows, ManagerOf(tenant, store), (r: Identity) =>
      r.member.tenant == tenant && r.member.store == store && Grants(r.member.role, BookingIntentManage));
    WhereTwice(rows, ManagerOf(tenant, store), isMember, ChosenOf(tenant, store, preferred));
  }

  function ManagerOf(tenant: Id, store: Id): Identity -> bool {
    (r: Identity) => r.member.tenant == tenant && r.member.store == store && !r.member.role.Agent?
  }

  function ChosenOf(tenant: Id, store: Id, preferred: Option<Id>): Identity -> bool {
    (r: Identity) => ManagerOf(tenant, store)(r) && preferred == Some(r.member.id)
  }

  lemma RecipientIsExact(db: Db, app: Id, tenant: Id, store: Id, preferred: Option<Id>) returns (i: nat)
    ensures var r := Recipient(Managers(StaffIdentities(db.bindings, db.members, app), tenant, store), preferred);
            if r.Some? then i < |db.bindings| && r.value.binding == db.bindings[i].id
                            && forall k: nat, n :: Addressee(db, app, tenant, store, preferred, k, n) <==>
                                                     k == i && n == r.value.member
            else forall k: nat, n :: !Addressee(db, app, tenant, store, preferred, k, n)
  {
    var rows := StaffIdentities(db.bindings, db.members, app);
    RecipientRows(rows, tenant, store, preferred);
    NoRowIsNobody(db.bindings, db.members, app, ByChoice(tenant, store, preferred), ChosenOf(tenant, store, preferred));
    var x := OneRowIsOnly(db.bindings, db.members, app, ByChoice(tenant, store, preferred),
      ChosenOf(tenant, store, preferred));
    var y := OneRowIsOnly(db.bindings, db.members, app, ByManager(tenant, store), ManagerOf(tenant, store));
    i := if |Where(rows, ChosenOf(tenant, store, preferred))| == 1 then x else y;
  }

  /** The booking is one to announce, and this is whom to. */
  ghost predicate Announces(db: Db, app: Id, ctx: Context, booking: Id, i: nat, m: Member) {
    && InScope(db.bookings, ctx, booking) && db.bookings[booking].status.PendingConfirmation?
    && Addressee(db, app, ctx.tenant, ctx.store, db.bookings[booking].preferredStaff, i, m)
  }

  /** Each answer of an announcement has its reason, and a booking's version is announced once per application. */
  ghost predicate NotificationAnswered(db: Db, after: Db, app: Id, ctx: Context, booking: Id, newTask: Id,
      r: Result<Prepared, StoreOpsError>)
  {
    && (r == Err(Forbidden) <==> forall m :: !Authorized(db.members, ctx, BookingIntentCreate, m))
    && (r == Err(NotFound) <==>
          !InScope(db.bookings, ctx, booking) && exists m :: Authorized(db.members, ctx, BookingIntentCreate, m))
    && (r.Err? ==> r.error.Forbidden? || r.error.NotFound?)
    && (r.Ok? ==>
          && (r.value.NoRecipient? <==> forall i: nat, m :: !Announces(db, app, ctx, booking, i, m))
          && (r.value.AlreadyNotified? ==> (booking, db.bookings[booking].version, app) in db.taskKeys)
          && (r.value.Insert? ==>
                && r.value.task == newTask
                && (booking, db.bookings[booking].version, app) !in db.taskKeys
                && exists i: nat, m :: && Announces(db, app, ctx, booking, i, m)
                                       && after == Announced(db, app, booking, newTask, db.bindings[i].id)))
    && (!(r.Ok? && r.value.Insert?) ==> after == db)
  }

  /** A new task through the binding, its card marked before it is sent. */
  function Announced(db: Db, app: Id, booking: Id, newTask: Id, binding: Id): Db
    requires booking in db.bookings
  {
    var b := db.bookings[booking];
    db.(tasks := db.tasks[newTask :=
          Task(booking, b.tenant, b.store, app, binding, b.version, Indeterminate, NotSent, NotSent)],
        taskKeys := db.taskKeys[(booking, b.version, app) := newTask])
  }

  lemma NotificationIsAnswered(db: Db, app: Id, ctx: Context, booking: Id, newTask: Id)
    ensures match PrepareNotification(db, app, ctx, booking, newTask)
            case Ok((after, prepared)) => NotificationAnswered(db, after, app, ctx, booking, newTask, Ok(prepared))
            case Err(e) => NotificationAnswered(db, db, app, ctx, booking, newTask, Err(e))
  {
    AuthorityOrNobody(db.members, ctx, BookingIntentCreate);
    var a := Authority(db.members, ctx, BookingIntentCreate);
    if a.Some? { assert Authorized(db.members, ctx, BookingIntentCreate, a.value); }
    if InScope(db.bookings, ctx, booking) {
      var i := RecipientIsExact(db, app, ctx.tenant, ctx.store, db.bookings[booking].preferredStaff);
      var r := Recipient(Managers(StaffIdentities(db.bindings, db.members, app), ctx.tenant, ctx.store),
        db.bookings[booking].preferredStaff);
      if r.Some? && db.bookings[booking].status.PendingConfirmation? {
        assert Announces(db, app, ctx, booking, i, r.value.member);
      }
    }
  }

  // Delivery columns

  /** UPDATE ... SET column = to WHERE task_id = task AND column = 'not_sent' */
  function TakeDelivery(db: Db, task: Id, c: Channel, to: Delivery): (Db, bool) {
    if task in db.tasks && Column(db.tasks[task], c).NotSent?
    then (db.(tasks := db.tasks[task := WithColumn(db.tasks[task], c, to)]), true)
    else (db, false)
  }

  /** UPDATE ... SET column = status WHERE task_id = task */
  function RecordDelivery(db: Db, task: Id, c: Channel, status: Delivery): Db {
    if task in db.tasks then db.(tasks := db.tasks[task := WithColumn(db.tasks[task], c, status)]) else db
  }

  function CommitTransition(db: Db, ctx: Context, booking: Id, raw: RawTransition): Result<Db, StoreOpsError> {
    match Transition(db.members, db.bookings, ctx, booking, raw)
    case Err(e) => Err(e)
    case Ok(after) => Ok(db.(bookings := db.bookings[booking := after]))
  }

  lemma UpdatedTwice<K, V>(m: map<K, V>, k: K, a: V, b: V)
    ensures m[k := a][k := b] == m[k := b]
  {
  }

  /** The tables as mutable rows. */
  class Tables {
    var members: seq<Member>
    var bindings: seq<StaffBinding>
    var conversations: map<Id, Conversation>
    var bookings: map<Id, Booking>
    var bookingKeys: map<(Id, Id, Id), Id>
    var tasks: map<Id, Task>
    var taskKeys: map<(Id, nat, Id), Id>
    var claims: map<(Id, Id), Claim>

    function State(): Db
      reads this
    {
      Db(members, bindings, conversations, bookings, bookingKeys, tasks, taskKeys, claims)
    }

    constructor ()
      ensures State() == Db([], [], map[], map[], map[], map[], map[], map[])
    {
      members, bindings, conversations := [], [], map[];
      bookings, bookingKeys, tasks, taskKeys, claims := map[], map[], map[], map[], map[];
    }

    method TransitionBookingIntent(ctx: Context, id: Id, raw: RawTransition) returns (r: Result<(), StoreOpsError>)
      modifies this`bookings
      ensures match CommitTransition(old(State()), ctx, id, raw)
              case Ok(after) => r == Ok(()) && State() == after
              case Err(e) => r == Err(e) && State() == old(State())
    {
      var parsed := ParseBookingTransition(raw);
      if parsed.Err? { return Err(parsed.error); }
      var data := parsed.value;
      var authority := Authority(members, ctx, RequiredCapability(data.action));
      if authority.None? { return Err(Forbidden); }
      if id !in bookings || bookings[id].tenant != ctx.tenant || bookings[id].store != ctx.store {
        return Err(NotFound);
      }
      var existing := bookings[id];
      if data.action.Cancel?
        && !(BookingIntentManage in ctx.capabilities && Grants(authority.value.role, BookingIntentManage)) {
        if existing.createdBy != authority.value.id || !existing.status.PendingConfirmation? { return Err(Forbidden); }
      }
      if existing.version != data.expectedVersion { return Err(BookingIntentConflict); }
      if existing.preferredStaff.Some? {
        if !ScopedStaff(members, ctx, existing.preferredStaff.value) { return Err(NotFound); }
      }
      var update := ResolveTransition(existing.status, existing.alternativeStart, existing.alternativeEnd, data);
      if update.Err? { return Err(update.error); }
      bookings := bookings[id := existing.(
        status := update.value.status,
        alternativeStart :=
          if update.value.alternativeStart.Some? then update.value.alternativeStart else existing.alternativeStart,
        alternativeEnd := if update.value.alternativeEnd.Some? then
          update.value.alternativeEnd else existing.alternativeEnd,
        confirmedStart := if update.value.confirmedStart.Some? then
          update.value.confirmedStart else existing.confirmedStart,
        confirmedEnd := if update.value.confirmedEnd.Some? then update.value.confirmedEnd else existing.confirmedEnd,
        version := existing.version + 1)];
      return Ok(());
    }

    method CreateBookingIntent(ctx: Context, key: Id, input: CreateInput, channelBindings: seq<Id>, newId: Id)
      returns (r: Result<Created, StoreOpsError>)
      modifies this`bookings, this`bookingKeys
      ensures match CreateBooking(old(State()), ctx, key, input, channelBindings, newId)
              case Ok((after, created)) => r == Ok(created) && State() == after
              case Err(e) => r == Err(e) && State() == old(State())
    {
      var times := Pair(input.start, input.end);
      if times.Err? { return Err(times.error); }
      var authority := Authority(members, ctx, BookingIntentCreate);
      if authority.None? { return Err(Forbidden); }
      if input.conversation !in conversations { return Err(NotFound); }
      var conversation := conversations[input.conversation];
      if conversation.tenant != ctx.tenant || conversation.store != ctx.store { return Err(NotFound); }
      if input.preferredStaff.Some? {
        if !ScopedStaff(members, ctx, input.preferredStaff.value) { return Err(NotFound); }
      }
      if |channelBindings| > 1 { return Err(BookingIntentConflict); }
      var binding := if |channelBindings| == 0 then None else Some(channelBindings[0]);
      var request := CreateRequest(input.conversation, input.service, times.value.0, times.value.1,
        input.preferredStaff,
                                   binding, authority.value.id);
      var inserted := (ctx.tenant, ctx.store, key) !in bookingKeys;
      if inserted {
        bookings := bookings[newId := Booking(ctx.tenant, ctx.store, input.conversation, conversation.customer,
          times.value.0, times.value.1, input.preferredStaff, PendingConfirmation, None, None, None, None,
          authority.value.id, request, 1)];
        bookingKeys := bookingKeys[(ctx.tenant, ctx.store, key) := newId];
      }
      var id := bookingKeys[(ctx.tenant, ctx.store, key)];
      if id !in bookings { return Err(BookingIntentConflict); }
      if bookings[id].createHash != request { return Err(BookingIntentConflict); }
      return Ok(Created(id, !inserted));
    }

    method InsertNotification(app: Id, ctx: Context, booking: Id, newTask: Id)
      returns (r: Result<Prepared, StoreOpsError>)
      modifies this`tasks, this`taskKeys
      ensures match PrepareNotification(old(State()), app, ctx, booking, newTask)
              case Ok((after, prepared)) => r == Ok(prepared) && State() == after
              case Err(e) => r == Err(e) && State() == old(State())
    {
      if Authority(members, ctx, BookingIntentCreate).None? { return Err(Forbidden); }
      if booking !in bookings { return Err(NotFound); }
      var row := bookings[booking];
      if row.tenant != ctx.tenant || row.store != ctx.store { return Err(NotFound); }
      if !row.status.PendingConfirmation? { return Ok(NoRecipient); }
      var candidates := Managers(StaffIdentities(bindings, members, app), ctx.tenant, ctx.store);
      var preferred := OfMember(candidates, row.preferredStaff);
      var recipient;
      if |preferred| == 1 {
        recipient := preferred[0];
      } else if |preferred| == 0 && |candidates| == 1 {
        recipient := candidates[0];
      } else {
        return Ok(NoRecipient);
      }
      if (booking, row.version, app) in taskKeys { return Ok(AlreadyNotified); }
      tasks := tasks[newTask :=
        Task(booking, row.tenant, row.store, app, recipient.binding, row.version, Indeterminate, NotSent, NotSent)];
      taskKeys := taskKeys[(booking, row.version, app) := newTask];
      return Ok(Insert(newTask));
    }

    /** The callback transaction: the claim is inserted as processing, the booking moved, the claim settled. */
    method ClaimAndTransition(app: Id, event: StaffEvent) returns (r: Result<Handled, StoreOpsError>)
      modifies this`claims, this`bookings
      ensures match HandleCallback(old(State()), app, event)
              case Ok((after, handled)) => r == Ok(handled) && State() == after
              case Err(e) => r == Err(e) && State() == old(State())
      ensures CallbackAnswered(old(State()), State(), app, event, r)
    {
      CallbackIsAnswered(State(), app, event);
      if event.agent != app { return Err(InvalidRequest); }
      var rows := OfSubject(StaffIdentities(bindings, members, app), event.subject);
      if |rows| != 1 { return Err(Forbidden); }
      var identity := rows[0];
      if !Grants(identity.member.role, BookingIntentManage) { return Err(Forbidden); }
      var ctx := ContextFor(identity.member);
      if event.task !in tasks { return Err(NotFound); }
      var t := tasks[event.task];
      if t.app != app || t.tenant != ctx.tenant || t.store != ctx.store || t.binding != identity.binding {
        return Err(NotFound);
      }
      if t.delivery.Rejected? { return Err(Forbidden); }
      var claimKey := (app, event.task);
      if claimKey in claims {
        if claims[claimKey].payload != event { return Err(BookingIntentConflict); }
        return Ok(Duplicate);
      }
      r := Settle(app, event, t, ctx);
    }

    /** From the insert of the claim on; any refusal rolls it back. */
    method Settle(app: Id, event: StaffEvent, t: Task, ctx: Context) returns (r: Result<Handled, StoreOpsError>)
      modifies this`claims, this`bookings
      ensures match SettleClaim(old(State()), app, event, t, ctx)
              case Ok((after, handled)) => r == Ok(handled) && State() == after
              case Err(e) => r == Err(e) && State() == old(State())
    {
      var claimKey := (app, event.task);
      var begin := claims;
      claims := claims[claimKey := Claim(event, Processing)];
      if t.booking !in bookings || bookings[t.booking].tenant != ctx.tenant || bookings[t.booking].store != ctx.store {
        claims := begin;
        return Err(NotFound);
      }
      var b := bookings[t.booking];
      var outcome;
      if b.version != t.expectedVersion || !b.status.PendingConfirmation? {
        outcome := Conflict;
      } else {
        if event.key.BookingConfirm? && (b.requestedStart.None? || b.requestedEnd.None?) {
          claims := begin;
          return Err(InvalidRequest);
        }
        var changed := TransitionBookingIntent(ctx, t.booking, StaffRequest(event.key, t, b));
        if changed.Err? {
          claims := begin;
          return Err(changed.error);
        }
        outcome := if bookings[t.booking].status.Confirmed? then BookingConfirmed else BookingCancelled;
      }
      UpdatedTwice(begin, claimKey, Claim(event, Processing),
        Claim(event, if outcome.Conflict? then Failed else Completed));
      claims := claims[claimKey := Claim(event, if outcome.Conflict? then Failed else Completed)];
      return Ok(Settled(outcome, if outcome.Conflict? then b.version else b.version + 1));
    }

    method ClaimDelivery(task: Id, c: Channel, to: Delivery) returns (claimed: bool)
      modifies this`tasks
      ensures (State(), claimed) == TakeDelivery(old(State()), task, c, to)
      ensures claimed <==> task in old(tasks) && Column(old(tasks)[task], c) == NotSent
    {
      claimed := false;
      if task in tasks {
        if Column(tasks[task], c).NotSent? {
          tasks := tasks[task := WithColumn(tasks[task], c, to)];
          claimed := true;
        }
      }
    }

    method SetDelivery(task: Id, c: Channel, status: Delivery)
      modifies this`tasks
      ensures State() == RecordDelivery(old(State()), task, c, status)
    {
      if task in tasks {
        tasks := tasks[task := WithColumn(tasks[task], c, status)];
      }
    }
  }
}
