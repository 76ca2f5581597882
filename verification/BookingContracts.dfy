/** Booking intents and availability windows: the pure rules of src/storeops/contracts.ts.

Instants are milliseconds; the source compares the equal-length strings that toISOString
prints for them, whose order is the same. */
module BookingContracts {
  import opened Wrappers

  type Instant = int

  const MAX_SAFE_INTEGER: int := 0x1F_FFFF_FFFF_FFFF

  datatype StoreOpsError =
    | InvalidRequest
    | Forbidden
    | NotFound
    | AvailabilityConflict
    | BookingIntentConflict
    | DependencyUnavailable

  datatype BookingStatus = PendingConfirmation | Confirmed | AlternativeProposed | Cancelled

  datatype BookingAction = Confirm | ProposeAlternative | Cancel

  /** One optional time field of a request body, after the instant check. */
  datatype TimeField = Absent | Malformed | At(at: Instant)

  datatype RawTransition = RawTransition(expectedVersion: int, action: BookingAction, start: TimeField, end: TimeField)

  datatype BookingTransition =
    BookingTransition(expectedVersion: int, action: BookingAction, start: Option<Instant>, end: Option<Instant>)

  /** What a transition overwrites; None keeps the stored column. */
  datatype BookingUpdate = BookingUpdate(
    status: BookingStatus,
    confirmedStart: Option<Instant>, confirmedEnd: Option<Instant>,
    alternativeStart: Option<Instant>, alternativeEnd: Option<Instant>)

  function Pair(start: TimeField, end: TimeField): Result<(Option<Instant>, Option<Instant>), StoreOpsError> {
    if start.Absent? && end.Absent? then Ok((None, None))
    else if !start.At? || !end.At? then Err(InvalidRequest)
    else if start.at >= end.at then Err(InvalidRequest)
    else Ok((Some(start.at), Some(end.at)))
  }

  function ParseBookingTransition(raw: RawTransition): Result<BookingTransition, StoreOpsError> {
    match Pair(raw.start, raw.end)
    case Err(e) => Err(e)
    case Ok((start, end)) =>
      if (raw.action.Cancel? && start.Some?) || (raw.action.ProposeAlternative? && start.None?) then Err(InvalidRequest)
      else if !(1 <= raw.expectedVersion <= MAX_SAFE_INTEGER) then Err(InvalidRequest)
      else Ok(BookingTransition(raw.expectedVersion, raw.action, start, end))
  }

  function ResolveTransition(
    status: BookingStatus, alternativeStart: Option<Instant>, alternativeEnd: Option<Instant>, input: BookingTransition
  ): Result<BookingUpdate, StoreOpsError> {
    if status.Cancelled? || (status.Confirmed? && !input.action.Cancel?) then Err(BookingIntentConflict)
    else if input.action.Cancel? then Ok(BookingUpdate(Cancelled, None, None, None, None))
    else if input.action.ProposeAlternative? then
      if !status.PendingConfirmation? then Err(BookingIntentConflict)
      else if input.start.None? || input.end.None? then Err(InvalidRequest)
      else Ok(BookingUpdate(AlternativeProposed, None, None, input.start, input.end))
    else if status.AlternativeProposed? then
      if input.start.Some? || input.end.Some? || alternativeStart.None? || alternativeEnd.None? then Err(InvalidRequest)
      else Ok(BookingUpdate(Confirmed, alternativeStart, alternativeEnd, None, None))
    else if input.start.None? || input.end.None? then Err(InvalidRequest)
    else Ok(BookingUpdate(Confirmed, input.start, input.end, None, None))
  }

  predicate OrderedPair(start: Option<Instant>, end: Option<Instant>) {
    start.Some? && end.Some? && start.value < end.value
  }

  /** The moves the status diagram allows. */
  predicate Allowed(status: BookingStatus, action: BookingAction) {
    match action
    case Cancel => !status.Cancelled?
    case ProposeAlternative => status.PendingConfirmation?
    case Confirm => status.PendingConfirmation? || status.AlternativeProposed?
  }

  /** Both times are there, in order, or neither. */
  predicate TimesSound(start: TimeField, end: TimeField) {
    (start.Absent? && end.Absent?) || (start.At? && end.At? && start.at < end.at)
  }

  /** A well-formed request: a version, and both times or neither, as its action wants them. */
  predicate Sound(raw: RawTransition) {
    && 1 <= raw.expectedVersion <= MAX_SAFE_INTEGER
    && TimesSound(raw.start, raw.end)
    && (raw.action.Cancel? ==> raw.start.Absent?)
    && (raw.action.ProposeAlternative? ==> raw.start.At?)
  }

  lemma ParsesExactly(raw: RawTransition)
    ensures ParseBookingTransition(raw).Ok? <==> Sound(raw)
    ensures ParseBookingTransition(raw).Err? ==> ParseBookingTransition(raw).error == InvalidRequest
    ensures Sound(raw) ==> var t := ParseBookingTransition(raw).value;
                           && t.expectedVersion == raw.expectedVersion && t.action == raw.action
                           && (if raw.start.At? then t.start == Some(raw.start.at) && t.end == Some(raw.end.at)
                               else t.start.None? && t.end.None?)
  {
  }

  /** A parsed request resolves exactly along the diagram: a pending booking is confirmed or countered with
  the ordered pair of the request, a countered one is confirmed with the stored alternative and nothing else. */
  lemma ResolveExactly(raw: RawTransition, status: BookingStatus, altStart: Option<Instant>, altEnd: Option<Instant>)
    requires ParseBookingTransition(raw).Ok?
    requires status.AlternativeProposed? ==> OrderedPair(altStart, altEnd)
    ensures var input := ParseBookingTransition(raw).value;
            var r := ResolveTransition(status, altStart, altEnd, input);
            && (r.Ok? <==>
                && Allowed(status, raw.action)
                && (raw.action.Confirm? ==> (status.PendingConfirmation? <==> raw.start.At?)))
            && (r.Err? && !Allowed(status, raw.action) ==> r.error == BookingIntentConflict)
            && (r.Ok? ==>
                && (r.value.status.Confirmed? ==>
                    && OrderedPair(r.value.confirmedStart, r.value.confirmedEnd)
                    && (status.AlternativeProposed?
                        ==> r.value.confirmedStart == altStart && r.value.confirmedEnd == altEnd)
                    && (status.PendingConfirmation?
                        ==> r.value.confirmedStart == Some(raw.start.at) && r.value.confirmedEnd == Some(raw.end.at)))
                && (r.value.status.AlternativeProposed? ==>
                      && r.value.alternativeStart == Some(raw.start.at) && r.value.alternativeEnd == Some(raw.end.at)
                      && raw.start.at < raw.end.at)
                && r.value.status == (match raw.action case Confirm => Confirmed case Cancel => Cancelled
                                      case ProposeAlternative => AlternativeProposed)
                && (!r.value.status.Confirmed? ==> r.value.confirmedStart.None? && r.value.confirmedEnd.None?)
                && (!r.value.status.AlternativeProposed?
                    ==> r.value.alternativeStart.None? && r.value.alternativeEnd.None?))
            && (r.Err? && Allowed(status, raw.action) ==> r.error == InvalidRequest)
  {
    assert raw.start.At? == raw.end.At?;
  }

  // Availability windows

  /** One submitted window; None is a field that is not an HH:MM string. Times are minutes of the day. */
  datatype RawWindow = RawWindow(start: Option<nat>, end: Option<nat>)

  datatype Window = Window(start: nat, end: nat)

  const MAX_WINDOWS: nat := 24

  predicate Readable(w: RawWindow) { w.start.Some? && w.end.Some? && w.start.value < 1440 && w.end.value < 1440 }

  /** Each window is non-empty and every earlier window ends before every later one starts. */
  ghost predicate Acceptable(raw: seq<RawWindow>) {
    && (forall i :: 0 <= i < |raw|
         ==> raw[i].start.Some? && raw[i].end.Some? && raw[i].start.value < raw[i].end.value < 24 * 60)
    && (forall i, j :: 0 <= i < j < |raw|
         ==> raw[i].end.Some? && raw[j].start.Some? && raw[i].end.value <= raw[j].start.value)
  }

  /** The one-pass check against the previous end accepts exactly the lists whose windows are pairwise disjoint
  and in order, and returns them unchanged. */
  method ParseWindows(raw: seq<RawWindow>) returns (r: Result<seq<Window>, StoreOpsError>)
    ensures r.Ok? <==> |raw| <= MAX_WINDOWS && Acceptable(raw)
    ensures r.Err? ==> r.error == InvalidRequest
    ensures r.Ok? ==> |r.value| == |raw|
    ensures r.Ok? ==> forall i :: 0 <= i < |raw| ==> r.value[i] == Window(raw[i].start.value, raw[i].end.value)
  {
    if |raw| > MAX_WINDOWS {
      return Err(InvalidRequest);
    }
    var previous: nat := 0;
    var windows := [];
    for n := 0 to |raw|
      invariant |windows| == n
      invariant Acceptable(raw[..n])
      invariant forall i :: 0 <= i < n
                  ==> Readable(raw[i]) && windows[i] == Window(raw[i].start.value, raw[i].end.value)
      invariant forall i :: 0 <= i < n ==> raw[i].end.value <= previous
      invariant previous == if n == 0 then 0 else raw[n - 1].end.value
    {
      var w := raw[n];
      if !Readable(w) || w.start.value >= w.end.value || w.start.value < previous {
        assert !Readable(raw[n]) || raw[n].start.value >= raw[n].end.value
            || (0 < n && !(raw[n - 1].end.value <= raw[n].start.value));
        return Err(InvalidRequest);
      }
      previous := w.end.value;
      windows := windows + [Window(w.start.value, w.end.value)];
    }
    assert raw[..|raw|] == raw;
    return Ok(windows);
  }
}
