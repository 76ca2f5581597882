/** StoreOpsService over committed rows (src/storeops/postgres.ts): who may change a booking intent, and what one
committed change does to its row. Identifiers are only ever compared for equality. */
module StoreOps {
  import opened Wrappers
  import opened BookingContracts

  datatype Role = Agent | Supervisor | Admin

  datatype Capability = BookingIntentCreate | BookingIntentManage | AvailabilityWrite

  predicate Grants(role: Role, capability: Capability) {
    match capability
    case BookingIntentCreate => true
    case BookingIntentManage => !role.Agent?
    case AvailabilityWrite => !role.Agent?
  }

  /** A row of memberships. */
  datatype Member = Member(id: Id, user: Id, tenant: Id, store: Id, role: Role)

  datatype Context = Context(user: Id, tenant: Id, store: Id, role: Role, capabilities: set<Capability>)

  function ContextFor(m: Member): Context {
    Context(m.user, m.tenant, m.store, m.role,
            if m.role.Agent? then {BookingIntentCreate}
            else {BookingIntentCreate, BookingIntentManage, AvailabilityWrite})
  }

  /** SELECT ... FROM memberships WHERE user_id = user */
  function RowsOf(members: seq<Member>, user: Id): (rows: seq<Member>)
    ensures forall m :: m in rows <==> m in members && m.user == user
  {
    WhereIn(members, (m: Member) => m.user == user);
    Where(members, (m: Member) => m.user == user)
  }

  /** The current authority of a caller: its one membership, when that still matches the context and the role still
  grants the capability. */
  function Authority(members: seq<Member>, ctx: Context, capability: Capability): Option<Member> {
    var rows := RowsOf(members, ctx.user);
    if capability !in ctx.capabilities || |rows| != 1 then None
    else if rows[0].tenant != ctx.tenant || rows[0].store != ctx.store || rows[0].role != ctx.role then None
    else if !Grants(rows[0].role, capability) then None
    else Some(rows[0])
  }

  predicate ScopedStaff(members: seq<Member>, ctx: Context, id: Id) {
    exists m :: m in members && m.id == id && m.tenant == ctx.tenant && m.store == ctx.store
  }

  /** What the create hash is taken over; SHA-256 is treated as injective. */
  datatype CreateRequest = CreateRequest(
    conversation: Id, service: Id, start: Option<Instant>, end: Option<Instant>, preferredStaff: Option<Id>,
    channelBinding: Option<Id>, actor: Id)

  datatype Booking = Booking(
    tenant: Id, store: Id, conversation: Id, customer: Id,
    requestedStart: Option<Instant>, requestedEnd: Option<Instant>, preferredStaff: Option<Id>,
    status: BookingStatus,
    alternativeStart: Option<Instant>, alternativeEnd: Option<Instant>,
    confirmedStart: Option<Instant>, confirmedEnd: Option<Instant>,
    createdBy: Id, createHash: CreateRequest, version: nat)

  /** COALESCE as the source writes it: update ?? existing. */
  function Else<T>(update: Option<T>, existing: Option<T>): Option<T> {
    if update.Some? then update else existing
  }

  function Updated(row: Booking, u: BookingUpdate): Booking {
    row.(status := u.status,
         alternativeStart := Else(u.alternativeStart, row.alternativeStart),
         alternativeEnd := Else(u.alternativeEnd, row.alternativeEnd),
         confirmedStart := Else(u.confirmedStart, row.confirmedStart),
         confirmedEnd := Else(u.confirmedEnd, row.confirmedEnd),
         version := row.version + 1)
  }

  function RequiredCapability(action: BookingAction): Capability {
    if action.Cancel? then BookingIntentCreate else BookingIntentManage
  }

  /** The row a transition commits, or why it commits nothing. */
  function Transition(
    members: seq<Member>, bookings: map<Id, Booking>, ctx: Context, id: Id, raw: RawTransition
  ): Result<Booking, StoreOpsError> {
    match ParseBookingTransition(raw)
    case Err(e) => Err(e)
    case Ok(input) =>
      var authority := Authority(members, ctx, RequiredCapability(raw.action));
      if authority.None? then Err(Forbidden)
      else if id !in bookings || bookings[id].tenant != ctx.tenant || bookings[id].store != ctx.store then Err(NotFound)
      else
        var actor, existing := authority.value, bookings[id];
        if && input.action.Cancel?
           && !(BookingIntentManage in ctx.capabilities && Grants(actor.role, BookingIntentManage))
           && (existing.createdBy != actor.id || !existing.status.PendingConfirmation?)
        then Err(Forbidden)
        else if existing.version != input.expectedVersion then Err(BookingIntentConflict)
        else if existing.preferredStaff.Some? && !ScopedStaff(members, ctx, existing.preferredStaff.value) then
          Err(NotFound)
        else
          match ResolveTransition(existing.status, existing.alternativeStart, existing.alternativeEnd, input)
          case Err(e) => Err(e)
          case Ok(u) => Ok(Updated(existing, u))
  }

  /** The life of one booking row: version counts its transitions, and the times its status promises are there. */
  predicate BookingInvariant(b: Booking) {
    && 1 <= b.version <= 4
    && (b.status.PendingConfirmation? <==> b.version == 1)
    && (b.status.AlternativeProposed? ==> b.version == 2)
    && (b.status.Confirmed? ==> b.version <= 3)
    && (b.status.PendingConfirmation? ==> b.alternativeStart.None? && b.confirmedStart.None?)
    && (b.status.AlternativeProposed? ==> OrderedPair(b.alternativeStart, b.alternativeEnd) && b.confirmedStart.None?)
    && (b.status.Confirmed? ==> OrderedPair(b.confirmedStart, b.confirmedEnd))
    && (b.status.Confirmed? && b.version == 3 ==>
          b.confirmedStart == b.alternativeStart && b.confirmedEnd == b.alternativeEnd)
  }

  /** What a committed transition may do to a row that satisfies the invariant. */
  ghost predicate Moved(before: Booking, after: Booking) {
    && after.version == before.version + 1
    && !before.status.Cancelled?
    && !after.status.PendingConfirmation?
    && (before.status.Confirmed? ==>
          after.status.Cancelled? && after.confirmedStart == before.confirmedStart
            && after.confirmedEnd == before.confirmedEnd)
    && (before.status.AlternativeProposed? && after.status.Confirmed? ==>
          after.confirmedStart == before.alternativeStart && after.confirmedEnd == before.alternativeEnd)
    && after == before.(status := after.status, version := after.version,
                        alternativeStart := after.alternativeStart, alternativeEnd := after.alternativeEnd,
                        confirmedStart := after.confirmedStart, confirmedEnd := after.confirmedEnd)
  }

  lemma TransitionKeepsInvariant(members: seq<Member>, bookings: map<Id, Booking>, ctx: Context, id: Id,
      raw: RawTransition)
    requires id in bookings && BookingInvariant(bookings[id])
    requires Transition(members, bookings, ctx, id, raw).Ok?
    ensures var after := Transition(members, bookings, ctx, id, raw).value;
            BookingInvariant(after) && Moved(bookings[id], after) && raw.expectedVersion == bookings[id].version
  {
    var b := bookings[id];
    ResolveExactly(raw, b.status, b.alternativeStart, b.alternativeEnd);
  }

  /** An agent without the manage capability can only cancel, and only a pending booking it created itself. */
  lemma AgentAuthority(members: seq<Member>, bookings: map<Id, Booking>, ctx: Context, id: Id, raw: RawTransition)
    requires ctx.role.Agent? && Transition(members, bookings, ctx, id, raw).Ok?
    ensures raw.action.Cancel? && bookings[id].status.PendingConfirmation?
    ensures exists m :: m in members && m.user == ctx.user && m.id == bookings[id].createdBy
  {
    var actor := Authority(members, ctx, RequiredCapability(raw.action)).value;
    assert actor in RowsOf(members, ctx.user);
  }

  // The answers of a transition, read off the request and the rows

  /** The j-th row is the user's only membership. */
  predicate Sits(members: seq<Member>, user: Id, j: nat) {
    j < |members| && members[j].user == user && forall k :: 0 <= k < |members| && members[k].user == user ==> k == j
  }

  /** The caller's only membership is m, still the one the context was made for, and not below the capability. */
  ghost predicate Authorized(members: seq<Member>, ctx: Context, capability: Capability, m: Member) {
    && capability in ctx.capabilities
    && (exists j: nat :: Sits(members, ctx.user, j) && members[j] == m)
    && m.tenant == ctx.tenant && m.store == ctx.store && m.role == ctx.role
    && (m.role.Agent? ==> capability.BookingIntentCreate?)
  }

  lemma SitsAlone(members: seq<Member>, user: Id, j: nat)
    requires Sits(members, user, j)
    ensures RowsOf(members, user) == [members[j]]
  {
    WhereIsOne(members, (m: Member) => m.user == user, j);
  }

  lemma OneRowSits(members: seq<Member>, user: Id) returns (j: nat)
    requires |RowsOf(members, user)| == 1
    ensures Sits(members, user, j)
  {
    j := OneIsOnly(members, (m: Member) => m.user == user);
  }

  lemma AuthorityIsExact(members: seq<Member>, ctx: Context, capability: Capability, m: Member)
    ensures Authority(members, ctx, capability) == Some(m) <==> Authorized(members, ctx, capability, m)
  {
    if Authority(members, ctx, capability) == Some(m) {
      var j := OneRowSits(members, ctx.user);
      SitsAlone(members, ctx.user, j);
    }
    if Authorized(members, ctx, capability, m) {
      var j: nat :| Sits(members, ctx.user, j) && members[j] == m;
      SitsAlone(members, ctx.user, j);
    }
  }

  predicate InScope(bookings: map<Id, Booking>, ctx: Context, id: Id) {
    id in bookings && bookings[id].tenant == ctx.tenant && bookings[id].store == ctx.store
  }

  /** A cancellation is for managers, or for the creator while the booking is pending. */
  predicate May(ctx: Context, m: Member, b: Booking, action: BookingAction) {
    action.Cancel? ==>
      (BookingIntentManage in ctx.capabilities && !m.role.Agent?)
      || (b.createdBy == m.id && b.status.PendingConfirmation?)
  }

  /** The preferred member of staff, if any, is still one of the store. */
  predicate StaffThere(members: seq<Member>, b: Booking) {
    b.preferredStaff.Some? ==>
      exists m :: m in members && m.id == b.preferredStaff.value && m.tenant == b.tenant && m.store == b.store
  }

  /** Who asks, and that the booking is one they may move. */
  ghost predicate Entitled(members: seq<Member>, bookings: map<Id, Booking>, ctx: Context, id: Id, raw: RawTransition) {
    && InScope(bookings, ctx, id)
    && exists m :: Authorized(members, ctx, Needed(raw.action), m) && May(ctx, m, bookings[id], raw.action)
  }

  function Needed(action: BookingAction): Capability {
    match action
    case Confirm => BookingIntentManage
    case ProposeAlternative => BookingIntentManage
    case Cancel => BookingIntentCreate
  }

  ghost predicate Recognized(members: seq<Member>, ctx: Context, raw: RawTransition) {
    exists m :: Authorized(members, ctx, Needed(raw.action), m)
  }

  /** A pending booking is confirmed with times, a countered one without, for its stored alternative. */
  predicate TimesFit(b: Booking, raw: RawTransition) {
    raw.action.Confirm? ==>
      if b.status.AlternativeProposed? then raw.start.Absent? && b.alternativeStart.Some? && b.alternativeEnd.Some?
      else raw.start.At?
  }

  /** The row after the move. */
  predicate MovedTo(b: Booking, raw: RawTransition, after: Booking) {
    match raw.action
    case Cancel => after == b.(status := Cancelled, version := b.version + 1)
    case ProposeAlternative =>
      && raw.start.At? && raw.end.At?
      && after == b.(status := AlternativeProposed, alternativeStart := Some(raw.start.at),
                     alternativeEnd := Some(raw.end.at), version := b.version + 1)
    case Confirm =>
      if b.status.PendingConfirmation? then
        && raw.start.At? && raw.end.At?
        && after == b.(status := Confirmed, confirmedStart := Some(raw.start.at), confirmedEnd := Some(raw.end.at),
                       version := b.version + 1)
      else after == b.(status := Confirmed, confirmedStart := b.alternativeStart, confirmedEnd := b.alternativeEnd,
                       version := b.version + 1)
  }

  /** Each answer has its reason: a committed row is the move the request asked for, and every refusal is given exactly
  for what is wrong, in the order in which it is looked for. */
  ghost predicate TransitionAnswered(members: seq<Member>, bookings: map<Id, Booking>, ctx: Context, id: Id,
      raw: RawTransition, r: Result<Booking, StoreOpsError>)
  {
    && (r.Ok? <==>
          && Sound(raw) && Entitled(members, bookings, ctx, id, raw) && bookings[id].version == raw.expectedVersion
          && StaffThere(members, bookings[id]) && Allowed(bookings[id].status, raw.action)
          && TimesFit(bookings[id], raw))
    && (r.Ok? ==> MovedTo(bookings[id], raw, r.value))
    && (r == Err(InvalidRequest) <==>
          || !Sound(raw)
          || (&& Entitled(members, bookings, ctx, id, raw) && bookings[id].version == raw.expectedVersion
              && StaffThere(members, bookings[id]) && Allowed(bookings[id].status, raw.action)
              && !TimesFit(bookings[id], raw)))
    && (r == Err(Forbidden) <==>
          && Sound(raw)
          && (|| !Recognized(members, ctx, raw)
              || (InScope(bookings, ctx, id) && !Entitled(members, bookings, ctx, id, raw))))
    && (r == Err(NotFound) <==>
          && Sound(raw) && Recognized(members, ctx, raw)
          && (|| !InScope(bookings, ctx, id)
              || (&& Entitled(members, bookings, ctx, id, raw) && bookings[id].version == raw.expectedVersion
                  && !StaffThere(members, bookings[id]))))
    && (r == Err(BookingIntentConflict) <==>
          && Sound(raw) && Entitled(members, bookings, ctx, id, raw)
          && (|| bookings[id].version != raw.expectedVersion
              || (StaffThere(members, bookings[id]) && !Allowed(bookings[id].status, raw.action))))
    && r != Err(AvailabilityConflict) && r != Err(DependencyUnavailable)
  }

  lemma RecognizedIsExact(members: seq<Member>, bookings: map<Id, Booking>, ctx: Context, id: Id, raw: RawTransition)
    ensures Authority(members, ctx, RequiredCapability(raw.action)).Some? <==> Recognized(members, ctx, raw)
    ensures Recognized(members, ctx, raw) ==>
              var m := Authority(members, ctx, RequiredCapability(raw.action)).value;
              && m.role == ctx.role
              && (Entitled(members, bookings, ctx, id, raw) <==>
                    InScope(bookings, ctx, id) && May(ctx, m, bookings[id], raw.action))
  {
    var a := Authority(members, ctx, RequiredCapability(raw.action));
    if a.Some? { AuthorityIsExact(members, ctx, RequiredCapability(raw.action), a.value); }
    forall m | Authorized(members, ctx, Needed(raw.action), m) ensures a == Some(m) {
      AuthorityIsExact(members, ctx, RequiredCapability(raw.action), m);
    }
  }

  lemma TransitionIsAnswered(members: seq<Member>, bookings: map<Id, Booking>, ctx: Context, id: Id,
      raw: RawTransition)
    ensures TransitionAnswered(members, bookings, ctx, id, raw, Transition(members, bookings, ctx, id, raw))
  {
    ParsesExactly(raw);
    RecognizedIsExact(members, bookings, ctx, id, raw);
  }
}
