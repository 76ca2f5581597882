/** What the loop over customer messages does with each of them, read off the table and the answers it gets, and what
its counters then say (src/enterprise/http-api.ts, routeWeComCustomerTexts; src/channels/wecom/client.ts). */
module CustomerAnswers {
  import opened Wrappers
  import opened WeComCustomer
  import opened CustomerLoop

  /** The platform took the text and echoed its id. */
  predicate Confirmed(w: Wire) { w == Taken(Echoed) }

  /** No answer that could be read, or an id that is not the message's. */
  predicate Unclear(w: Wire) { w == NoAnswer || w == Taken(Other) }

  /** A refusal by the client or the platform, no token, or errcode 0 with a malformed id. */
  predicate TakenAsRefused(w: Wire) { w == Refusable || w == NoToken || w == Refused || w == Taken(Malformed) }

  predicate New(rows: Rows, m: Message) { KeyOf(m) !in rows }

  /** The channel is bound, and its authority may invoke the agent. */
  predicate Authorized(channels: Channels, m: Message) {
    (m.corp, m.openKf) in channels && channels[(m.corp, m.openKf)].authorized
  }

  /** The message is claimed here. */
  predicate ClaimedHere(rows: Rows, m: Message, s: Script) { s.claim.Ok? && New(rows, m) }

  predicate RoutedHere(rows: Rows, channels: Channels, m: Message, s: Script) {
    ClaimedHere(rows, m, s) && Authorized(channels, m) && s.resolve.Ok? && s.attach.Ok?
  }

  predicate SentHere(rows: Rows, channels: Channels, m: Message, s: Script) {
    RoutedHere(rows, channels, m, s) && s.responds
  }

  /** When a message ends how. */
  predicate EndsAs(rows: Rows, channels: Channels, m: Message, s: Script, e: Ending) {
    match e
    case Aborted => s.claim.Throws?
    case Duplicated => s.claim.Ok? && !New(rows, m) && rows[KeyOf(m)].payload == m
    case Conflicted => s.claim.Ok? && !New(rows, m) && rows[KeyOf(m)].payload != m
    case Unbound => ClaimedHere(rows, m, s) && !Authorized(channels, m) && s.resolve.Ok? && s.mark.Ok?
    case AttachFailed => false
    case RoutingError =>
      && ClaimedHere(rows, m, s)
      && (s.resolve.Throws? || (if Authorized(channels, m) then s.attach.Throws? else s.mark.Throws?))
    case ExecutionError => RoutedHere(rows, channels, m, s) && !s.responds
    case OutboundRejected => SentHere(rows, channels, m, s) && TakenAsRefused(s.send)
    case OutboundIndeterminate => SentHere(rows, channels, m, s) && Unclear(s.send)
    case Completion => SentHere(rows, channels, m, s) && Confirmed(s.send) && s.complete.Ok?
    case CompletionPersistFailed => SentHere(rows, channels, m, s) && Confirmed(s.send) && s.complete.Throws?
  }

  /** The row that a handled message leaves: where nothing is said of a statement, it may have been lost. */
  predicate LeavesRow(channels: Channels, s: Script, e: Ending, r: Row) {
    match e
    case Aborted => r.state.Processing? && r.route.None?
    case Unbound => r.state.Failed? && r.route.None?
    case RoutingError =>
      && (r.state.Failed? || r.state.Processing? || r.state.Routed?)
      && (s.swallowed.Ok? ==> r.state.Failed?)
    case ExecutionError => r.route.Some? && r.state == (if Takes(s.swallowed) then Failed else Routed)
    case OutboundRejected => r.route.Some? && r.state == (if Takes(s.swallowed) then Failed else Routed)
    case OutboundIndeterminate => r.route.Some? && r.state == (if Takes(s.swallowed) then Indeterminate else Routed)
    case Completion => r.route.Some? && r.state.Completed?
    case CompletionPersistFailed =>
      && r.route.Some?
      && r.state == (if Takes(s.complete) then Completed
                     else if Takes(s.swallowed) then Indeterminate else Routed)
    case _ => true
  }

  lemma EndsOnce(rows: Rows, channels: Channels, m: Message, s: Script, e: Ending, f: Ending)
    requires EndsAs(rows, channels, m, s, e) && EndsAs(rows, channels, m, s, f)
    ensures e == f
  {
  }

  /** What a handled message leaves: nothing is changed but its own new row, which says how far it got. */
  predicate Leaves(rows: Rows, channels: Channels, m: Message, s: Script, o: Outcome) {
    var k := KeyOf(m);
    if !New(rows, m) then o.rows == rows
    else if k !in o.rows then o.ending.Aborted? && !Takes(s.claim) && o.rows == rows
    else && (o.ending.Aborted? ==> Takes(s.claim))
         && o.rows == rows[k := o.rows[k]] && o.rows[k].payload == m && LeavesRow(channels, s, o.ending, o.rows[k])
  }

  /** Every message ends in the one way that its row, its channel and the answers say, and only its own row changes: to
  one that says how far it got. */
  lemma EndingIsExact(rows: Rows, d: Directory, channels: Channels, m: Message, s: Script)
    ensures var o := Handle(rows, d, channels, m, s);
            && EndsAs(rows, channels, m, s, o.ending) && Leaves(rows, channels, m, s, o)
            && forall e :: EndsAs(rows, channels, m, s, e) ==> e == o.ending
  {
    var o := Handle(rows, d, channels, m, s);
    if ClaimedHere(rows, m, s) { ClaimedEndsExactly(rows, d, channels, m, s); }
    forall e | EndsAs(rows, channels, m, s, e) ensures e == o.ending {
      EndsOnce(rows, channels, m, s, e, o.ending);
    }
  }

  lemma ClaimedEndsExactly(rows: Rows, d: Directory, channels: Channels, m: Message, s: Script)
    requires ClaimedHere(rows, m, s)
    ensures var o := Handle(rows, d, channels, m, s);
            EndsAs(rows, channels, m, s, o.ending) && Leaves(rows, channels, m, s, o)
  {
    RoutingIsExact(rows, d, channels, m, s);
    var r := RouteOf(Claim(rows, m).0, d, channels, m, s);
    if r.RoutedOn? { ServedExactly(r.rows, r.directory, rows, channels, m, s); }
  }

  lemma ServedExactly(routed: Rows, d: Directory, rows: Rows, channels: Channels, m: Message, s: Script)
    requires RoutedHere(rows, channels, m, s) && KeyOf(m) in routed && routed == rows[KeyOf(m) := routed[KeyOf(m)]]
    requires routed[KeyOf(m)].payload == m && routed[KeyOf(m)].state.Routed? && routed[KeyOf(m)].route.Some?
    ensures var o := Served(routed, d, KeyOf(m), s);
            EndsAs(rows, channels, m, s, o.ending) && Leaves(rows, channels, m, s, o)
  {
  }

  /** After the claim, an authorized channel gives a route that is then attached, since nobody else has the row. */
  lemma RoutingIsExact(rows: Rows, d: Directory, channels: Channels, m: Message, s: Script)
    requires ClaimedHere(rows, m, s)
    ensures var claimed := Claim(rows, m).0;
            var r := RouteOf(claimed, d, channels, m, s);
            && (r.RoutedOn? <==> RoutedHere(rows, channels, m, s))
            && (r.RoutedOn? ==>
                  && KeyOf(m) in r.rows && r.rows == claimed[KeyOf(m) := r.rows[KeyOf(m)]]
                  && r.rows[KeyOf(m)].payload == m && r.rows[KeyOf(m)].state.Routed? && r.rows[KeyOf(m)].route.Some?)
            && (r.Ended? ==>
                  && (r.outcome.ending.Unbound? || r.outcome.ending.RoutingError?)
                  && (r.outcome.ending.Unbound? <==>
                        !Authorized(channels, m) && s.resolve.Ok? && s.mark.Ok?)
                  && KeyOf(m) in r.outcome.rows
                  && r.outcome.rows == claimed[KeyOf(m) := r.outcome.rows[KeyOf(m)]]
                  && r.outcome.rows[KeyOf(m)].payload == m
                  && LeavesRow(channels, s, r.outcome.ending, r.outcome.rows[KeyOf(m)]))
  {
  }

  // What the counters count

  /** The i-th message ended with one of these. */
  ghost function Ended(endings: seq<Ending>, kinds: set<Ending>): set<nat> {
    Below(|endings|, (i: nat) => i < |endings| && endings[i] in kinds)
  }

  lemma {:induction false} CountIsSize(endings: seq<Ending>, e: Ending)
    ensures CountOf(endings, e) == |Ended(endings, {e})|
  {
    if endings != [] {
      CountIsSize(endings[..|endings| - 1], e);
      EndedStep(endings, {e});
    }
  }

  lemma EndedStep(endings: seq<Ending>, kinds: set<Ending>)
    requires endings != []
    ensures |Ended(endings, kinds)|
         == |Ended(endings[..|endings| - 1], kinds)| + if endings[|endings| - 1] in kinds then 1 else 0
  {
    var n := |endings| - 1;
    GrowsBy(Ended(endings[..n], kinds), Ended(endings, kinds), n, endings[n] in kinds);
  }

  lemma {:induction false} WhereIsSize(endings: seq<Ending>, p: Ending -> bool, kinds: set<Ending>)
    requires forall e :: p(e) <==> e in kinds
    ensures CountWhere(endings, p) == |Ended(endings, kinds)|
  {
    if endings != [] {
      WhereIsSize(endings[..|endings| - 1], p, kinds);
      EndedStep(endings, kinds);
    }
  }

  const ACCEPTED: set<Ending> := {Completion, CompletionPersistFailed}

  const ROUTED: set<Ending> := {ExecutionError, OutboundRejected, OutboundIndeterminate} + ACCEPTED

  const CLAIMED: set<Ending> := {Unbound, AttachFailed, RoutingError} + ROUTED

  /** Each counter is the number of messages that ended so, or got so far. */
  lemma CountersAreExact(k: Counters, endings: seq<Ending>)
    requires Counts(k, endings)
    ensures k.claimed == |Ended(endings, CLAIMED)| && k.routed == |Ended(endings, ROUTED)|
    ensures k.outboundAccepted == |Ended(endings, ACCEPTED)|
    ensures k.duplicates == |Ended(endings, {Duplicated})| && k.conflicts == |Ended(endings, {Conflicted})|
    ensures k.unbound == |Ended(endings, {Unbound})| && k.routeAttachFailed == |Ended(endings, {AttachFailed})|
    ensures k.routingErrors == |Ended(endings, {RoutingError})|
    ensures k.executionErrors == |Ended(endings, {ExecutionError})|
    ensures k.outboundRejected == |Ended(endings, {OutboundRejected})|
    ensures k.outboundIndeterminate == |Ended(endings, {OutboundIndeterminate})|
    ensures k.completed == |Ended(endings, {Completion})|
    ensures k.completionPersistFailed == |Ended(endings, {CompletionPersistFailed})|
  {
    WhereIsSize(endings, WasClaimed, CLAIMED);
    WhereIsSize(endings, WasRouted, ROUTED);
    WhereIsSize(endings, WasAccepted, ACCEPTED);
    forall e ensures CountOf(endings, e) == |Ended(endings, {e})| {
      CountIsSize(endings, e);
    }
  }

  /** In the loop, each message ends as the table it meets, its channel and its own answers say. */
  lemma LoopEndsExactly(rows: Rows, d: Directory, channels: Channels, messages: seq<Message>, scripts: seq<Script>,
      n: nat)
    requires n < |messages| == |scripts| && Aborted !in LoopAfter(rows, d, channels, messages, scripts, n).endings
    ensures var l := LoopAfter(rows, d, channels, messages, scripts, n);
            var o := Handle(l.rows, l.directory, channels, messages[n], scripts[n]);
            && LoopAfter(rows, d, channels, messages, scripts, n + 1).endings == l.endings + [o.ending]
            && |l.endings| == n && EndsAs(l.rows, channels, messages[n], scripts[n], o.ending)
  {
    var l := LoopAfter(rows, d, channels, messages, scripts, n);
    EndingIsExact(l.rows, l.directory, channels, messages[n], scripts[n]);
  }
}
