/** Daily availability under optimistic locking: the version a writer read is the version its write replaces
(src/storeops/postgres.ts, putAvailability; src/storeops/contracts.ts, parseAvailabilityWrite). */
module Availability {
  import opened Wrappers
  import opened BookingContracts
  import opened StoreOps

  datatype Publication = Published | Withdrawn

  /** A request body; a missing date or status is one that fails its check. */
  datatype RawWrite = RawWrite(date: Option<Id>, expectedVersion: int, windows: seq<RawWindow>,
    status: Option<Publication>)

  /** UNIQUE (tenant_id, store_id, staff_membership_id, local_date) */
  datatype Key = Key(tenant: Id, store: Id, staff: Id, date: Id)

  datatype Day = Day(zone: Id, windows: seq<Window>, status: Publication, updatedBy: Id, version: nat)

  type Days = map<Key, Day>

  /** Windows are non-empty, in order and do not overlap. */
  predicate Orderly(windows: seq<Window>) {
    && |windows| <= MAX_WINDOWS
    && (forall i :: 0 <= i < |windows| ==> windows[i].start < windows[i].end < 1440)
    && (forall i, j :: 0 <= i < j < |windows| ==> windows[i].end <= windows[j].start)
  }

  ghost predicate WellFormed(raw: RawWrite) {
    raw.date.Some? && raw.status.Some? && |raw.windows| <= MAX_WINDOWS && Acceptable(raw.windows)
      && 0 <= raw.expectedVersion <= MAX_SAFE_INTEGER
  }

  function WindowsOf(raw: seq<RawWindow>): (r: seq<Window>)
    requires forall i :: 0 <= i < |raw| ==> Readable(raw[i])
    ensures |r| == |raw|
  {
    seq(|raw|, i requires 0 <= i < |raw| && Readable(raw[i]) => Window(raw[i].start.value, raw[i].end.value))
  }

  ghost function Put(members: seq<Member>, days: Days, ctx: Context, zone: Option<Id>, staff: Id,
      raw: RawWrite): Result<Days, StoreOpsError>
  {
    if !WellFormed(raw) then Err(InvalidRequest)
    else if Authority(members, ctx, AvailabilityWrite).None? then Err(Forbidden)
    else if zone.None? then Err(DependencyUnavailable)
    else if !ScopedStaff(members, ctx, staff) then Err(NotFound)
    else
      var key := Key(ctx.tenant, ctx.store, staff, raw.date.value);
      var day := Day(zone.value, WindowsOf(raw.windows), raw.status.value,
        Authority(members, ctx, AvailabilityWrite).value.id, raw.expectedVersion + 1);
      if (if raw.expectedVersion == 0 then key in days else key !in days || days[key].version != raw.expectedVersion)
      then Err(AvailabilityConflict) else Ok(days[key := day])
  }

  // The answers of a write, read off the request and the rows

  /** A request that can be read: windows in order and disjoint, and a version from 0 on. */
  ghost predicate Sound(raw: RawWrite) {
    && raw.date.Some? && raw.status.Some? && |raw.windows| <= 24 && Acceptable(raw.windows)
    && 0 <= raw.expectedVersion <= 0x1F_FFFF_FFFF_FFFF
  }

  ghost predicate MayWrite(members: seq<Member>, ctx: Context) {
    exists m :: Authorized(members, ctx, AvailabilityWrite, m)
  }

  predicate OfStore(members: seq<Member>, ctx: Context, staff: Id) {
    exists m :: m in members && m.id == staff && m.tenant == ctx.tenant && m.store == ctx.store
  }

  /** The row is the one the writer read: none for version 0. */
  predicate Fresh(days: Days, key: Key, version: int) {
    if version == 0 then key !in days else key in days && days[key].version == version
  }

  /** Each answer has its reason, and a written day is the request's, one version on, in the name of its writer. */
  ghost predicate PutAnswered(members: seq<Member>, days: Days, ctx: Context, zone: Option<Id>, staff: Id,
      raw: RawWrite, r: Result<Day, StoreOpsError>)
  {
    && (r == Err(InvalidRequest) <==> !Sound(raw))
    && (r == Err(Forbidden) <==> Sound(raw) && !MayWrite(members, ctx))
    && (r == Err(DependencyUnavailable) <==> Sound(raw) && MayWrite(members, ctx) && zone.None?)
    && (r == Err(NotFound) <==> Sound(raw) && MayWrite(members, ctx) && zone.Some? && !OfStore(members, ctx, staff))
    && (r == Err(AvailabilityConflict) <==>
          && Sound(raw) && MayWrite(members, ctx) && zone.Some? && OfStore(members, ctx, staff)
          && !Fresh(days, Key(ctx.tenant, ctx.store, staff, raw.date.value), raw.expectedVersion))
    && r != Err(BookingIntentConflict)
    && (r.Ok? ==>
          && zone == Some(r.value.zone) && raw.status == Some(r.value.status)
          && r.value.version == raw.expectedVersion + 1
          && (exists m :: Authorized(members, ctx, AvailabilityWrite, m) && r.value.updatedBy == m.id)
          && |r.value.windows| == |raw.windows|
          && forall i :: 0 <= i < |raw.windows| ==>
               raw.windows[i] == RawWindow(Some(r.value.windows[i].start), Some(r.value.windows[i].end)))
  }

  lemma PutIsAnswered(members: seq<Member>, days: Days, ctx: Context, zone: Option<Id>, staff: Id, raw: RawWrite)
    ensures match Put(members, days, ctx, zone, staff, raw)
            case Ok(after) =>
              raw.date.Some?
              && var key := Key(ctx.tenant, ctx.store, staff, raw.date.value);
                 key in after && PutAnswered(members, days, ctx, zone, staff, raw, Ok(after[key]))
            case Err(e) => PutAnswered(members, days, ctx, zone, staff, raw, Err(e))
  {
    var a := Authority(members, ctx, AvailabilityWrite);
    forall m ensures a == Some(m) <==> Authorized(members, ctx, AvailabilityWrite, m) {
      AuthorityIsExact(members, ctx, AvailabilityWrite, m);
    }
    if a.Some? { assert Authorized(members, ctx, AvailabilityWrite, a.value); }
  }

  class AvailabilityTable {
    var members: seq<Member>
    var days: Days

    method PutAvailability(ctx: Context, zone: Option<Id>, staff: Id, raw: RawWrite)
      returns (r: Result<Day, StoreOpsError>)
      modifies `days
      ensures match Put(members, old(days), ctx, zone, staff, raw)
              case Ok(after) => r.Ok? && days == after
                && days == old(days)[Key(ctx.tenant, ctx.store, staff, raw.date.value) := r.value]
              case Err(e) => r == Err(e) && days == old(days)
      ensures PutAnswered(members, old(days), ctx, zone, staff, raw, r)
    {
      PutIsAnswered(members, days, ctx, zone, staff, raw);
      if raw.date.None? || raw.status.None? {
        return Err(InvalidRequest);
      }
      var windows := ParseWindows(raw.windows);
      if windows.Err? || !(0 <= raw.expectedVersion <= MAX_SAFE_INTEGER) {
        return Err(InvalidRequest);
      }
      assert windows.value == WindowsOf(raw.windows);
      var actor := Authority(members, ctx, AvailabilityWrite);
      if actor.None? {
        return Err(Forbidden);
      }
      if zone.None? {
        return Err(DependencyUnavailable);
      }
      if !ScopedStaff(members, ctx, staff) {
        return Err(NotFound);
      }
      var key := Key(ctx.tenant, ctx.store, staff, raw.date.value);
      var day;
      if raw.expectedVersion == 0 {
        if key in days {
          return Err(AvailabilityConflict);
        }
        day := Day(zone.value, windows.value, raw.status.value, actor.value.id, 1);
      } else {
        if key !in days || days[key].version != raw.expectedVersion {
          return Err(AvailabilityConflict);
        }
        day := Day(zone.value, windows.value, raw.status.value, actor.value.id, days[key].version + 1);
      }
      days := days[key := day];
      r := Ok(day);
    }
  }

  // Concurrent writers

  /** A committed write, with the version its writer had read. */
  datatype Write = Write(key: Key, expected: nat, day: Day)

  datatype System = System(members: seq<Member>, days: Days, writes: seq<Write>)

  datatype Step = Submit(ctx: Context, zone: Option<Id>, staff: Id, raw: RawWrite) | Administer(members: seq<Member>)

  const Init := System([], map[], [])

  ghost function Apply(s: System, step: Step): System {
    match step
    case Submit(ctx, zone, staff, raw) =>
      (match Put(s.members, s.days, ctx, zone, staff, raw)
       case Ok(after) =>
         var key := Key(ctx.tenant, ctx.store, staff, raw.date.value);
         s.(days := after, writes := s.writes + [Write(key, raw.expectedVersion, after[key])])
       case Err(_) => s)
    case Administer(members) => s.(members := members)
  }

  ghost function Run(s: System, steps: seq<Step>): System {
    if steps == [] then s else Apply(Run(s, steps[..|steps| - 1]), steps[|steps| - 1])
  }

  function Of(writes: seq<Write>, key: Key): seq<Write> {
    if writes == [] then []
    else Of(writes[..|writes| - 1], key) + if writes[|writes| - 1].key == key then [writes[|writes| - 1]] else []
  }

  /** Each write of the day read exactly the version its predecessor produced, and the last one is the row. */
  predicate Chain(mine: seq<Write>, row: Option<Day>) {
    && (forall i :: 0 <= i < |mine|
         ==> mine[i].expected == i && mine[i].day.version == i + 1 && Orderly(mine[i].day.windows))
    && (if mine == [] then row.None? else row == Some(mine[|mine| - 1].day))
  }

  function RowOf(days: Days, key: Key): Option<Day> { if key in days then Some(days[key]) else None }

  ghost predicate Invariant(s: System) { forall key :: Chain(Of(s.writes, key), RowOf(s.days, key)) }

  lemma OfGrows(writes: seq<Write>, w: Write, key: Key)
    ensures Of(writes + [w], key) == Of(writes, key) + if w.key == key then [w] else []
  {
    assert (writes + [w])[..|writes|] == writes;
  }

  lemma AcceptedIsOrderly(raw: seq<RawWindow>)
    requires |raw| <= MAX_WINDOWS && Acceptable(raw)
    ensures Orderly(WindowsOf(raw))
  {
  }

  lemma WriteExtends(mine: seq<Write>, row: Option<Day>, w: Write)
    requires Chain(mine, row) && Orderly(w.day.windows) && w.day.version == w.expected + 1
    requires w.expected == if row.None? then 0 else row.value.version
    ensures Chain(mine + [w], Some(w.day))
  {
  }

  lemma StepKeeps(s: System, step: Step)
    requires Invariant(s)
    ensures Invariant(Apply(s, step))
  {
    var n := Apply(s, step);
    if n.writes != s.writes {
      var w := n.writes[|s.writes|];
      AcceptedIsOrderly(step.raw.windows);
      forall key ensures Chain(Of(n.writes, key), RowOf(n.days, key)) {
        assert Chain(Of(s.writes, key), RowOf(s.days, key));
        OfGrows(s.writes, w, key);
        if key == w.key { WriteExtends(Of(s.writes, key), RowOf(s.days, key), w); }
      }
    }
  }

  lemma {:induction false} Reachable(steps: seq<Step>)
    ensures Invariant(Run(Init, steps))
  {
    if steps != [] {
      Reachable(steps[..|steps| - 1]);
      StepKeeps(Run(Init, steps[..|steps| - 1]), steps[|steps| - 1]);
    }
  }

  /** No update is lost: in every run a day's version counts its committed writes, the n-th of which replaced the
  version the (n-1)-th produced, and the row is the last write's, with orderly windows. */
  lemma NoLostUpdate(steps: seq<Step>, key: Key)
    ensures var s := Run(Init, steps); Chain(Of(s.writes, key), RowOf(s.days, key))
    ensures var s := Run(Init, steps);
      key in s.days ==> s.days[key].version == |Of(s.writes, key)| && Orderly(s.days[key].windows)
  {
    Reachable(steps);
    var s := Run(Init, steps);
    assert Chain(Of(s.writes, key), RowOf(s.days, key));
  }

  lemma {:induction false} OfHas(writes: seq<Write>, i: nat) returns (x: nat)
    requires i < |writes|
    ensures x < |Of(writes, writes[i].key)| && Of(writes, writes[i].key)[x] == writes[i]
      && x == |Of(writes[..i], writes[i].key)|
  {
    if i < |writes| - 1 {
      x := OfHas(writes[..|writes| - 1], i);
      assert writes[..|writes| - 1][..i] == writes[..i];
    } else {
      x := |Of(writes[..i], writes[i].key)|;
    }
  }

  lemma {:induction false} OfPrefix(writes: seq<Write>, i: nat, j: nat)
    requires i < j <= |writes|
    ensures |Of(writes[..i], writes[i].key)| < |Of(writes[..j], writes[i].key)|
  {
    assert writes[..j][..j - 1] == writes[..j - 1];
    if i < j - 1 { OfPrefix(writes, i, j - 1); }
  }

  /** Of the writers that read the same version of a day, at most one gets its write in. */
  lemma OneWriterPerVersion(steps: seq<Step>, i: nat, j: nat)
    requires var writes := Run(Init, steps).writes;
             i <= j < |writes| && writes[i].key == writes[j].key && writes[i].expected == writes[j].expected
    ensures i == j
  {
    Reachable(steps);
    var writes := Run(Init, steps).writes;
    assert Chain(Of(writes, writes[i].key), RowOf(Run(Init, steps).days, writes[i].key));
    var x := OfHas(writes, i);
    var y := OfHas(writes, j);
    if i < j { OfPrefix(writes, i, j); }
  }
}
