/** What one handle call does with a message when no other call comes in between: the row it leaves and the effects it
has, read off the answers it gets (src/channels/wecom/core.ts, handle). */
module WeComOutcomes {
  import opened Wrappers
  import opened WeComInbound
  import opened WeComCore

  /** Whether a statement's answer arrives, or it throws before or after taking effect. */
  datatype Said = Answered | Throws(committed: bool)

  /** What the world answers one call; None is a call that throws, and an identity of None an unknown sender. */
  datatype Script = Script(
    claim: Said, first: Option<Option<Identity>>, mapped: Option<(Id, Id)>, second: Option<Option<Identity>>,
    attach: Said, responds: bool, third: Option<Option<Identity>>, mark: Said, sends: bool, complete: Said,
    abort: Said)

  predicate Takes(a: Said) { a.Answered? || a.committed }

  function Statement(a: Said): Reply { if a.Answered? then Done else Lost(a.committed) }

  function Resolution(answer: Option<Option<Identity>>): Reply {
    if answer.Some? then Resolved(answer.value) else Lost(false)
  }

  /** The answer to what the call asks at its stage. */
  function ReplyFor(s: Script, stage: Stage): Reply {
    match stage
    case Claiming => Statement(s.claim)
    case Resolving => Resolution(s.first)
    case Mapping(_) => if s.mapped.Some? then Mapped(s.mapped.value.0, s.mapped.value.1) else Lost(false)
    case Rechecking(_) => Resolution(s.second)
    case Attaching(_) => Statement(s.attach)
    case Responding(_) => if s.responds then Done else Lost(false)
    case Verifying(_) => Resolution(s.third)
    case Marking(_) => Statement(s.mark)
    case Sending(_) => if s.sends then Done else Lost(false)
    case Completing(_) => Statement(s.complete)
    case Aborting(_, _) => Statement(s.abort)
  }

  /** The identities answered are the sender's. */
  ghost predicate Consistent(bindings: map<Id, Binding>, m: Message, s: Script) {
    && (s.first.Some? ==> Resolves(bindings, m, s.first.value))
    && (s.second.Some? ==> Resolves(bindings, m, s.second.value))
    && (s.third.Some? ==> Resolves(bindings, m, s.third.value))
  }

  /** Call c goes on for n more steps. */
  ghost function Play(st: System, c: Id, s: Script, n: nat): System
    decreases n
  {
    if n == 0 || c !in st.calls then st
    else Play(Apply(st, Advance(c, ReplyFor(s, st.calls[c].stage))), c, s, n - 1)
  }

  // How far the message gets

  predicate IsClaimed(rows: Rows, m: Message, s: Script) { s.claim.Answered? && KeyOf(m) !in rows }

  /** The sender is known, a conversation was found, and the sender is still the same. */
  predicate IsPlaced(rows: Rows, m: Message, s: Script) {
    && IsClaimed(rows, m, s) && s.first.Some? && s.first.value.Some? && s.mapped.Some?
    && s.second == Some(s.first.value)
  }

  function WorkOf(s: Script): Work
    requires s.first.Some? && s.first.value.Some? && s.mapped.Some?
  {
    Work(s.first.value.value, s.mapped.value.0, s.mapped.value.1)
  }

  function At(s: Script): Attachment
    requires s.first.Some? && s.first.value.Some? && s.mapped.Some?
  {
    Attachment(WorkOf(s).identity.binding, WorkOf(s).identity.tenant, WorkOf(s).identity.store, WorkOf(s).conversation)
  }

  /** The conversation may take the new message. */
  predicate Fits(st: System, m: Message, s: Script)
    requires IsPlaced(st.rows, m, s)
  {
    MayAttach(st.rows[KeyOf(m) := Row(m, Processing, NotSent, None)], st.conversations, st.bindings, KeyOf(m),
      WorkOf(s).identity, WorkOf(s).conversation, WorkOf(s).customer)
  }

  predicate IsAttached(st: System, m: Message, s: Script) {
    IsPlaced(st.rows, m, s) && s.attach.Answered? && Fits(st, m, s)
  }

  predicate IsVerified(st: System, m: Message, s: Script) {
    IsAttached(st, m, s) && s.responds && s.third == Some(s.first.value)
  }

  predicate IsMarked(st: System, m: Message, s: Script) { IsVerified(st, m, s) && s.mark.Answered? }

  predicate IsSent(st: System, m: Message, s: Script) { IsMarked(st, m, s) && s.sends }

  /** The row a new message is left with. A message that never got to the agent is failed; one that did is
  indeterminate, its delivery uncertain from the mark on; and one that was sent and completed is completed. Where the
  last statement is lost, the row stays as it was. */
  function Left(st: System, m: Message, s: Script): Row {
    if s.claim.Throws? then Row(m, Processing, NotSent, None)
    else if !IsAttached(st, m, s) then
      Row(m, if Takes(s.abort) then Failed else Processing, NotSent,
          if IsPlaced(st.rows, m, s) && Fits(st, m, s) && Takes(s.attach) then Some(At(s)) else None)
    else if !IsVerified(st, m, s) then
      Row(m, if Takes(s.abort) then Indeterminate else Processing, NotSent, Some(At(s)))
    else if !IsMarked(st, m, s) then
      if Takes(s.abort) then Row(m, Indeterminate, Uncertain, Some(At(s)))
      else Row(m, Processing, if Takes(s.mark) then Uncertain else NotSent, Some(At(s)))
    else if IsSent(st, m, s) && Takes(s.complete) then Row(m, Completed, Sent, Some(At(s)))
    else Row(m, if Takes(s.abort) then Indeterminate else Processing, Uncertain, Some(At(s)))
  }

  /** The agent is started for an attached message, send is called for a marked one, and returns for a sent one. */
  function Effects(st: System, m: Message, s: Script): seq<Effect> {
    (if IsAttached(st, m, s) then [Responded(KeyOf(m), WorkOf(s))] else [])
    + (if IsMarked(st, m, s) then [SendCalled(KeyOf(m))] else [])
    + (if IsSent(st, m, s) then [SendReturned(KeyOf(m))] else [])
  }

  // Stage by stage, from the last

  /** The call is at a stage, with its row and what it did so far. */
  function Mid(st: System, c: Id, m: Message, stage: Stage, row: Row, done: seq<Effect>): System {
    st.(rows := st.rows[KeyOf(m) := row], calls := st.calls[c := Call(m, stage)], effects := st.effects + done)
  }

  /** The call is over. */
  function End(st: System, m: Message, row: Row, done: seq<Effect>): System {
    st.(rows := st.rows[KeyOf(m) := row], effects := st.effects + done)
  }

  lemma MovesOn(st: System, c: Id, m: Message, stage: Stage, row: Row, done: seq<Effect>, next: Stage, after: Row,
      more: seq<Effect>)
    ensures Moved(Mid(st, c, m, stage, row, done), c, next,
                  Mid(st, c, m, stage, row, done).rows[KeyOf(m) := after], more)
         == Mid(st, c, m, next, after, done + more)
    ensures Moved(Mid(st, c, m, stage, row, done), c, next, Mid(st, c, m, stage, row, done).rows, [])
         == Mid(st, c, m, next, row, done)
  {
    assert st.rows[KeyOf(m) := row][KeyOf(m) := after] == st.rows[KeyOf(m) := after];
    assert st.effects + done + more == st.effects + (done + more);
  }

  lemma ReturnsWith(st: System, c: Id, m: Message, stage: Stage, row: Row, done: seq<Effect>, after: Row)
    requires c !in st.calls
    ensures Returned(Mid(st, c, m, stage, row, done), c, Mid(st, c, m, stage, row, done).rows[KeyOf(m) := after])
         == End(st, m, after, done)
    ensures Returned(Mid(st, c, m, stage, row, done), c, Mid(st, c, m, stage, row, done).rows) == End(st, m, row, done)
  {
    assert st.rows[KeyOf(m) := row][KeyOf(m) := after] == st.rows[KeyOf(m) := after];
    assert Without(st.calls[c := Call(m, stage)], c) == st.calls;
  }

  lemma PlayOver(st: System, c: Id, m: Message, s: Script, row: Row, done: seq<Effect>, n: nat)
    requires c !in st.calls
    ensures Play(End(st, m, row, done), c, s, n) == End(st, m, row, done)
  {
  }

  lemma FromAborting(st: System, c: Id, m: Message, s: Script, row: Row, done: seq<Effect>, d: bool, u: bool, n: nat)
    requires c !in st.calls && n >= 1
    ensures Play(Mid(st, c, m, Aborting(d, u), row, done), c, s, n)
         == End(st, m,
                if row.state.Processing? && Takes(s.abort)
                then row.(state := if d then Indeterminate else Failed, delivery := if u then Uncertain else NotSent)
                else row, done)
  {
    var at := Mid(st, c, m, Aborting(d, u), row, done);
    var after := row.(state := if d then Indeterminate else Failed, delivery := if u then Uncertain else NotSent);
    ReturnsWith(st, c, m, Aborting(d, u), row, done, after);
    var next := Apply(at, Advance(c, ReplyFor(s, Aborting(d, u))));
    assert next == if row.state.Processing? && Takes(s.abort) then End(st, m, after, done) else End(st, m, row, done);
    PlayOver(st, c, m, s, after, done, n - 1);
    PlayOver(st, c, m, s, row, done, n - 1);
  }

  lemma FromCompleting(st: System, c: Id, m: Message, s: Script, row: Row, done: seq<Effect>, w: Work, n: nat)
    requires c !in st.calls && n >= 2 && row.state.Processing? && row.delivery.Uncertain?
    ensures Play(Mid(st, c, m, Completing(w), row, done), c, s, n)
         == End(st, m,
                if Takes(s.complete) then row.(state := Completed, delivery := Sent)
                else row.(state := if Takes(s.abort) then Indeterminate else Processing), done)
  {
    var at, after := Mid(st, c, m, Completing(w), row, done), row.(state := Completed, delivery := Sent);
    ReturnsWith(st, c, m, Completing(w), row, done, after);
    MovesOn(st, c, m, Completing(w), row, done, Aborting(true, true), after, []);
    assert done + [] == done;
    var next := Apply(at, Advance(c, ReplyFor(s, Completing(w))));
    if s.complete.Answered? {
      assert next == End(st, m, after, done);
      PlayOver(st, c, m, s, after, done, n - 1);
    } else {
      assert next == Mid(st, c, m, Aborting(true, true), if s.complete.committed then after else row, done);
      FromAborting(st, c, m, s, if s.complete.committed then after else row, done, true, true, n - 1);
    }
  }

  lemma FromSending(st: System, c: Id, m: Message, s: Script, row: Row, done: seq<Effect>, w: Work, n: nat)
    requires c !in st.calls && n >= 3 && row.state.Processing? && row.delivery.Uncertain?
    ensures Play(Mid(st, c, m, Sending(w), row, done), c, s, n)
         == End(st, m,
                if s.sends && Takes(s.complete) then row.(state := Completed, delivery := Sent)
                else row.(state := if Takes(s.abort) then Indeterminate else Processing),
                done + if s.sends then [SendReturned(KeyOf(m))] else [])
  {
    var at := Mid(st, c, m, Sending(w), row, done);
    MovesOn(st, c, m, Sending(w), row, done, Completing(w), row, [SendReturned(KeyOf(m))]);
    MovesOn(st, c, m, Sending(w), row, done, Aborting(true, true), row, []);
    assert done + [] == done && at.rows[KeyOf(m) := row] == at.rows;
    var next := Apply(at, Advance(c, ReplyFor(s, Sending(w))));
    if s.sends {
      assert next == Mid(st, c, m, Completing(w), row, done + [SendReturned(KeyOf(m))]);
      FromCompleting(st, c, m, s, row, done + [SendReturned(KeyOf(m))], w, n - 1);
    } else {
      assert next == Mid(st, c, m, Aborting(true, true), row, done);
      FromAborting(st, c, m, s, row, done, true, true, n - 1);
    }
  }

  /** The row and effects of a message whose delivery is about to be marked. */
  function MarkedRow(row: Row, s: Script): Row {
    if s.mark.Answered? then
      if s.sends && Takes(s.complete) then row.(state := Completed, delivery := Sent)
      else row.(state := if Takes(s.abort) then Indeterminate else Processing, delivery := Uncertain)
    else if Takes(s.abort) then row.(state := Indeterminate, delivery := Uncertain)
    else row.(delivery := if s.mark.committed then Uncertain else NotSent)
  }

  function MarkedEffects(k: Key, s: Script): seq<Effect> {
    if s.mark.Answered? then [SendCalled(k)] + (if s.sends then [SendReturned(k)] else []) else []
  }

  lemma FromMarking(st: System, c: Id, m: Message, s: Script, row: Row, done: seq<Effect>, w: Work, n: nat)
    requires c !in st.calls && n >= 4 && row.state.Processing? && row.delivery.NotSent? && row.attached.Some?
    ensures Play(Mid(st, c, m, Marking(w), row, done), c, s, n)
         == End(st, m, MarkedRow(row, s), done + MarkedEffects(KeyOf(m), s))
  {
    var at, after, called := Mid(st, c, m, Marking(w), row, done), row.(delivery := Uncertain), [SendCalled(KeyOf(m))];
    MovesOn(st, c, m, Marking(w), row, done, Sending(w), after, called);
    MovesOn(st, c, m, Marking(w), row, done, Aborting(true, true), after, []);
    assert done + [] == done;
    var next := Apply(at, Advance(c, ReplyFor(s, Marking(w))));
    if s.mark.Answered? {
      assert next == Mid(st, c, m, Sending(w), after, done + called);
      FromSending(st, c, m, s, after, done + called, w, n - 1);
      assert done + called + (if s.sends then [SendReturned(KeyOf(m))] else []) == done + MarkedEffects(KeyOf(m), s);
    } else {
      assert next == Mid(st, c, m, Aborting(true, true), if s.mark.committed then after else row, done);
      FromAborting(st, c, m, s, if s.mark.committed then after else row, done, true, true, n - 1);
    }
  }

  /** The same once the agent was started. */
  function DispatchedRow(row: Row, s: Script, w: Work): Row {
    if s.responds && s.third == Some(Some(w.identity)) then MarkedRow(row, s)
    else row.(state := if Takes(s.abort) then Indeterminate else Processing)
  }

  function DispatchedEffects(k: Key, s: Script, w: Work): seq<Effect> {
    if s.responds && s.third == Some(Some(w.identity)) then MarkedEffects(k, s) else []
  }

  lemma FromVerifying(st: System, c: Id, m: Message, s: Script, row: Row, done: seq<Effect>, w: Work, n: nat)
    requires c !in st.calls && n >= 5 && row.state.Processing? && row.delivery.NotSent? && row.attached.Some?
    requires Consistent(st.bindings, m, s) && s.responds
    ensures Play(Mid(st, c, m, Verifying(w), row, done), c, s, n)
         == End(st, m, DispatchedRow(row, s, w), done + DispatchedEffects(KeyOf(m), s, w))
  {
    var at := Mid(st, c, m, Verifying(w), row, done);
    MovesOn(st, c, m, Verifying(w), row, done, Marking(w), row, []);
    MovesOn(st, c, m, Verifying(w), row, done, Aborting(true, false), row, []);
    assert done + [] == done;
    var next := Apply(at, Advance(c, ReplyFor(s, Verifying(w))));
    if s.third == Some(Some(w.identity)) {
      assert next == Mid(st, c, m, Marking(w), row, done);
      FromMarking(st, c, m, s, row, done, w, n - 1);
    } else {
      assert next == Mid(st, c, m, Aborting(true, false), row, done);
      FromAborting(st, c, m, s, row, done, true, false, n - 1);
    }
  }

  lemma FromResponding(st: System, c: Id, m: Message, s: Script, row: Row, done: seq<Effect>, w: Work, n: nat)
    requires c !in st.calls && n >= 6 && row.state.Processing? && row.delivery.NotSent? && row.attached.Some?
    requires Consistent(st.bindings, m, s)
    ensures Play(Mid(st, c, m, Responding(w), row, done), c, s, n)
         == End(st, m, DispatchedRow(row, s, w), done + DispatchedEffects(KeyOf(m), s, w))
  {
    var at := Mid(st, c, m, Responding(w), row, done);
    MovesOn(st, c, m, Responding(w), row, done, Verifying(w), row, []);
    MovesOn(st, c, m, Responding(w), row, done, Aborting(true, false), row, []);
    assert done + [] == done;
    var next := Apply(at, Advance(c, ReplyFor(s, Responding(w))));
    if s.responds {
      assert next == Mid(st, c, m, Verifying(w), row, done);
      FromVerifying(st, c, m, s, row, done, w, n - 1);
    } else {
      assert next == Mid(st, c, m, Aborting(true, false), row, done);
      FromAborting(st, c, m, s, row, done, true, false, n - 1);
    }
  }

  predicate Attaches(st: System, m: Message, row: Row, w: Work) {
    MayAttach(st.rows[KeyOf(m) := row], st.conversations, st.bindings, KeyOf(m), w.identity, w.conversation, w.customer)
  }

  function AttachedRow(row: Row, w: Work): Row { row.(attached := Some(Place(w.identity, w.conversation))) }

  function PlacedRow(st: System, m: Message, row: Row, s: Script, w: Work): Row {
    if Attaches(st, m, row, w) && s.attach.Answered? then DispatchedRow(AttachedRow(row, w), s, w)
    else (if Attaches(st, m, row, w) && Takes(s.attach) then AttachedRow(row, w) else row)
         .(state := if Takes(s.abort) then Failed else Processing)
  }

  function PlacedEffects(st: System, m: Message, row: Row, s: Script, w: Work): seq<Effect> {
    if Attaches(st, m, row, w) && s.attach.Answered? then
      [Responded(KeyOf(m), w)] + DispatchedEffects(KeyOf(m), s, w)
    else []
  }

  lemma Attached(st: System, c: Id, m: Message, s: Script, row: Row, done: seq<Effect>, w: Work, n: nat)
    requires c !in st.calls && n >= 7 && row.state.Processing? && row.delivery.NotSent? && row.attached.None?
    requires Consistent(st.bindings, m, s) && Attaches(st, m, row, w) && s.attach.Answered?
    ensures Play(Mid(st, c, m, Attaching(w), row, done), c, s, n)
         == End(st, m, PlacedRow(st, m, row, s, w), done + PlacedEffects(st, m, row, s, w))
  {
    var at, after := Mid(st, c, m, Attaching(w), row, done), AttachedRow(row, w);
    AttachIsExact(at.rows, at.conversations, at.bindings, KeyOf(m), w.identity, w.conversation, w.customer);
    MovesOn(st, c, m, Attaching(w), row, done, Responding(w), after, [Responded(KeyOf(m), w)]);
    assert Apply(at, Advance(c, ReplyFor(s, Attaching(w))))
        == Mid(st, c, m, Responding(w), after, done + [Responded(KeyOf(m), w)]);
    FromResponding(st, c, m, s, after, done + [Responded(KeyOf(m), w)], w, n - 1);
    assert done + [Responded(KeyOf(m), w)] + DispatchedEffects(KeyOf(m), s, w)
        == done + PlacedEffects(st, m, row, s, w);
  }

  lemma NotAttached(st: System, c: Id, m: Message, s: Script, row: Row, done: seq<Effect>, w: Work, n: nat)
    requires c !in st.calls && n >= 7 && row.state.Processing? && row.delivery.NotSent? && row.attached.None?
    requires !(Attaches(st, m, row, w) && s.attach.Answered?)
    ensures Play(Mid(st, c, m, Attaching(w), row, done), c, s, n)
         == End(st, m, PlacedRow(st, m, row, s, w), done + PlacedEffects(st, m, row, s, w))
  {
    var at, after := Mid(st, c, m, Attaching(w), row, done), AttachedRow(row, w);
    AttachIsExact(at.rows, at.conversations, at.bindings, KeyOf(m), w.identity, w.conversation, w.customer);
    MovesOn(st, c, m, Attaching(w), row, done, Aborting(false, false), after, []);
    assert done + [] == done;
    var left := if Attaches(st, m, row, w) && Takes(s.attach) then after else row;
    assert Apply(at, Advance(c, ReplyFor(s, Attaching(w)))) == Mid(st, c, m, Aborting(false, false), left, done);
    FromAborting(st, c, m, s, left, done, false, false, n - 1);
  }

  lemma FromAttaching(st: System, c: Id, m: Message, s: Script, row: Row, done: seq<Effect>, w: Work, n: nat)
    requires c !in st.calls && n >= 7 && row.state.Processing? && row.delivery.NotSent? && row.attached.None?
    requires Consistent(st.bindings, m, s)
    ensures Play(Mid(st, c, m, Attaching(w), row, done), c, s, n)
         == End(st, m, PlacedRow(st, m, row, s, w), done + PlacedEffects(st, m, row, s, w))
  {
    if Attaches(st, m, row, w) && s.attach.Answered? {
      Attached(st, c, m, s, row, done, w, n);
    } else {
      NotAttached(st, c, m, s, row, done, w, n);
    }
  }

  /** A message that never got as far as the conversation. */
  function RefusedRow(row: Row, s: Script): Row { row.(state := if Takes(s.abort) then Failed else Processing) }

  lemma FromRechecking(st: System, c: Id, m: Message, s: Script, row: Row, done: seq<Effect>, w: Work, n: nat)
    requires c !in st.calls && n >= 8 && row.state.Processing? && row.delivery.NotSent? && row.attached.None?
    requires Consistent(st.bindings, m, s)
    ensures Play(Mid(st, c, m, Rechecking(w), row, done), c, s, n)
         == if s.second == Some(Some(w.identity))
            then End(st, m, PlacedRow(st, m, row, s, w), done + PlacedEffects(st, m, row, s, w))
            else End(st, m, RefusedRow(row, s), done)
  {
    var at := Mid(st, c, m, Rechecking(w), row, done);
    MovesOn(st, c, m, Rechecking(w), row, done, Attaching(w), row, []);
    MovesOn(st, c, m, Rechecking(w), row, done, Aborting(false, false), row, []);
    assert done + [] == done;
    var next := Apply(at, Advance(c, ReplyFor(s, Rechecking(w))));
    if s.second == Some(Some(w.identity)) {
      assert next == Mid(st, c, m, Attaching(w), row, done);
      FromAttaching(st, c, m, s, row, done, w, n - 1);
    } else {
      assert next == Mid(st, c, m, Aborting(false, false), row, done);
      FromAborting(st, c, m, s, row, done, false, false, n - 1);
    }
  }

  lemma FromMapping(st: System, c: Id, m: Message, s: Script, row: Row, done: seq<Effect>, i: Identity, n: nat)
    requires c !in st.calls && n >= 9 && row.state.Processing? && row.delivery.NotSent? && row.attached.None?
    requires Consistent(st.bindings, m, s)
    ensures Play(Mid(st, c, m, Mapping(i), row, done), c, s, n)
         == if s.mapped.Some? && s.second == Some(Some(i))
            then var w := Work(i, s.mapped.value.0, s.mapped.value.1);
                 End(st, m, PlacedRow(st, m, row, s, w), done + PlacedEffects(st, m, row, s, w))
            else End(st, m, RefusedRow(row, s), done)
  {
    var at := Mid(st, c, m, Mapping(i), row, done);
    assert done + [] == done;
    var next := Apply(at, Advance(c, ReplyFor(s, Mapping(i))));
    if s.mapped.Some? {
      var w := Work(i, s.mapped.value.0, s.mapped.value.1);
      MovesOn(st, c, m, Mapping(i), row, done, Rechecking(w), row, []);
      assert next == Mid(st, c, m, Rechecking(w), row, done);
      FromRechecking(st, c, m, s, row, done, w, n - 1);
    } else {
      MovesOn(st, c, m, Mapping(i), row, done, Aborting(false, false), row, []);
      assert next == Mid(st, c, m, Aborting(false, false), row, done);
      FromAborting(st, c, m, s, row, done, false, false, n - 1);
    }
  }

  lemma FromResolving(st: System, c: Id, m: Message, s: Script, row: Row, n: nat)
    requires c !in st.calls && n >= 10 && row == Row(m, Processing, NotSent, None) && Consistent(st.bindings, m, s)
    requires KeyOf(m) !in st.rows && s.claim.Answered?
    ensures Play(Mid(st, c, m, Resolving, row, []), c, s, n) == End(st, m, Left(st, m, s), Effects(st, m, s))
  {
    var at := Mid(st, c, m, Resolving, row, []);
    var next := Apply(at, Advance(c, ReplyFor(s, Resolving)));
    if s.first.Some? && s.first.value.Some? {
      MovesOn(st, c, m, Resolving, row, [], Mapping(s.first.value.value), row, []);
      assert next == Mid(st, c, m, Mapping(s.first.value.value), row, []);
      FromMapping(st, c, m, s, row, [], s.first.value.value, n - 1);
    } else {
      MovesOn(st, c, m, Resolving, row, [], Aborting(false, false), row, []);
      assert next == Mid(st, c, m, Aborting(false, false), row, []);
      FromAborting(st, c, m, s, row, [], false, false, n - 1);
    }
    if IsPlaced(st.rows, m, s) {
      LeftPlaced(st, m, s);
    } else {
      assert Left(st, m, s) == RefusedRow(row, s) && Effects(st, m, s) == [];
    }
  }

  lemma LeftPlaced(st: System, m: Message, s: Script)
    requires IsPlaced(st.rows, m, s)
    ensures var row := Row(m, Processing, NotSent, None);
            && PlacedRow(st, m, row, s, WorkOf(s)) == Left(st, m, s)
            && [] + PlacedEffects(st, m, row, s, WorkOf(s)) == Effects(st, m, s)
  {
    var row := Row(m, Processing, NotSent, None);
    assert Attaches(st, m, row, WorkOf(s)) <==> Fits(st, m, s);
  }

  lemma ClaimedAlone(st: System, c: Id, m: Message, s: Script, n: nat)
    requires c !in st.calls && n >= 11 && Consistent(st.bindings, m, s) && KeyOf(m) !in st.rows && s.claim.Answered?
    ensures Play(Apply(st, Receive(c, m)), c, s, n) == End(st, m, Left(st, m, s), Effects(st, m, s))
  {
    var received := Apply(st, Receive(c, m));
    var row := Row(m, Processing, NotSent, None);
    assert st.effects + [] == st.effects;
    assert Apply(received, Advance(c, ReplyFor(s, Claiming))) == Mid(st, c, m, Resolving, row, []);
    FromResolving(st, c, m, s, row, n - 1);
  }

  lemma RefusedAlone(st: System, c: Id, m: Message, s: Script, n: nat)
    requires c !in st.calls && n >= 11 && (KeyOf(m) in st.rows || s.claim.Throws?)
    ensures Play(Apply(st, Receive(c, m)), c, s, n)
         == if KeyOf(m) in st.rows || !s.claim.committed then st
            else End(st, m, Row(m, Processing, NotSent, None), [])
  {
    var received := Apply(st, Receive(c, m));
    var row := Row(m, Processing, NotSent, None);
    var next := Apply(received, Advance(c, ReplyFor(s, Claiming)));
    assert Without(received.calls, c) == st.calls;
    assert st.effects + [] == st.effects;
    if KeyOf(m) !in st.rows && s.claim.committed {
      assert next == End(st, m, row, []);
      PlayOver(st, c, m, s, row, [], n - 1);
    } else {
      assert next == st;
    }
  }

  /** A call that handles a message alone: a message claimed before is left alone, and a new one gets the row and the
  effects that its answers give it. */
  lemma HandledAlone(st: System, c: Id, m: Message, s: Script, n: nat)
    requires c !in st.calls && n >= 11 && Consistent(st.bindings, m, s)
    ensures Play(Apply(st, Receive(c, m)), c, s, n)
         == if KeyOf(m) in st.rows || (s.claim.Throws? && !s.claim.committed) then st
            else End(st, m, Left(st, m, s), Effects(st, m, s))
  {
    if KeyOf(m) !in st.rows && s.claim.Answered? {
      ClaimedAlone(st, c, m, s, n);
    } else {
      RefusedAlone(st, c, m, s, n);
    }
  }
}
