/** The loop over one callback's messages and its thirteen counters (src/enterprise/http-api.ts,
routeWeComCustomerTexts), with no other callback in between; CustomerRefinement shows it to be one of the interleavings
of CustomerRouting. */
module CustomerLoop {
  import opened Wrappers
  import opened StoreOps
  import opened WeComCustomer

  /** Whether a statement's answer arrives, or it throws before or after taking effect. */
  datatype Reply = Ok | Throws(committed: bool)

  /** What the world answers while one message is handled. */
  datatype Script = Script(
    claim: Reply, resolve: Reply, newCustomer: Id, newConversation: Id, attach: Reply, mark: Reply,
    responds: bool, send: Wire, complete: Reply, swallowed: Reply)

  datatype Ending =
    | Duplicated | Conflicted | Unbound | AttachFailed | RoutingError | ExecutionError
    | OutboundRejected | OutboundIndeterminate | Completion | CompletionPersistFailed
    | Aborted

  datatype Outcome = Outcome(rows: Rows, directory: Directory, ending: Ending)

  predicate Takes(r: Reply) { r.Ok? || r.committed }

  function FailedRows(rows: Rows, k: Key, r: Reply): Rows { if Takes(r) then MarkFailed(rows, k).0 else rows }

  function DoubtedRows(rows: Rows, k: Key, r: Reply): Rows { if Takes(r) then MarkIndeterminate(rows, k).0 else rows }

  /** After the claim: markFailed in the try block, whose own error is a routing error. */
  function GivenUp(rows: Rows, d: Directory, k: Key, s: Script, ending: Ending): Outcome {
    var marked := FailedRows(rows, k, s.mark);
    if s.mark.Ok? then Outcome(marked, d, ending) else Outcome(FailedRows(marked, k, s.swallowed), d, RoutingError)
  }

  /** After the attachment: run the agent, send, complete. */
  function Served(rows: Rows, d: Directory, k: Key, s: Script): Outcome {
    if !s.responds then Outcome(FailedRows(rows, k, s.swallowed), d, ExecutionError)
    else
      match OutcomeOf(s.send)
      case Rejected => Outcome(FailedRows(rows, k, s.swallowed), d, OutboundRejected)
      case Unknown => Outcome(DoubtedRows(rows, k, s.swallowed), d, OutboundIndeterminate)
      case Accepted =>
        var (completed, ok) := Complete(rows, k);
        if s.complete.Ok? && ok then Outcome(completed, d, Completion)
        else Outcome(DoubtedRows(if Takes(s.complete) then completed else rows, k, s.swallowed), d,
          CompletionPersistFailed)
  }

  datatype Routing = Ended(outcome: Outcome) | RoutedOn(rows: Rows, directory: Directory)

  /** The routing try block, for a claimed message. */
  function RouteOf(rows: Rows, d: Directory, channels: Channels, m: Message, s: Script): Routing {
    var k := KeyOf(m);
    var (resolved, route) := ResolveRoute(d, channels, m, s.newCustomer, s.newConversation);
    if s.resolve.Throws?
    then Ended(Outcome(FailedRows(rows, k, s.swallowed), if s.resolve.committed then resolved else d, RoutingError))
    else if route.None? then Ended(GivenUp(rows, resolved, k, s, Unbound))
    else
      var (attached, ok) := AttachRoute(rows, k, route.value);
      if s.attach.Throws?
      then Ended(Outcome(FailedRows(if s.attach.committed then attached else rows, k, s.swallowed), resolved,
        RoutingError))
      else if !ok then Ended(GivenUp(rows, resolved, k, s, AttachFailed))
      else RoutedOn(attached, resolved)
  }

  function Handle(rows: Rows, d: Directory, channels: Channels, m: Message, s: Script): Outcome {
    var (claimed, status) := Claim(rows, m);
    if s.claim.Throws? then Outcome(if s.claim.committed then claimed else rows, d, Aborted)
    else if status.Duplicate? then Outcome(rows, d, Duplicated)
    else if status.Conflict? then Outcome(rows, d, Conflicted)
    else
      match RouteOf(claimed, d, channels, m, s)
      case Ended(outcome) => outcome
      case RoutedOn(routed, directory) => Served(routed, directory, KeyOf(m), s)
  }

  // Counters

  datatype Counters = Counters(
    claimed: nat, duplicates: nat, conflicts: nat, routed: nat, completed: nat, unbound: nat, routeAttachFailed: nat,
    routingErrors: nat, executionErrors: nat, outboundAccepted: nat, outboundRejected: nat, outboundIndeterminate: nat,
    completionPersistFailed: nat)

  const Zero := Counters(0, 0, 0, 0, 0, 0, 0, 0, 0, 0, 0, 0, 0)

  function CountOf(endings: seq<Ending>, e: Ending): nat {
    if endings == [] then 0 else CountOf(endings[..|endings| - 1], e) + if endings[|endings| - 1] == e then 1 else 0
  }

  predicate WasClaimed(e: Ending) { !e.Duplicated? && !e.Conflicted? && !e.Aborted? }

  predicate WasRouted(e: Ending) { WasClaimed(e) && !e.Unbound? && !e.AttachFailed? && !e.RoutingError? }

  predicate WasAccepted(e: Ending) { e.Completion? || e.CompletionPersistFailed? }

  function CountWhere(endings: seq<Ending>, p: Ending -> bool): nat {
    if endings == [] then 0 else CountWhere(endings[..|endings| - 1], p) + if p(endings[|endings| - 1]) then 1 else 0
  }

  /** Each counter says how many messages ended, or got as far as, what its name says. */
  predicate Counts(k: Counters, endings: seq<Ending>) {
    && k.claimed == CountWhere(endings, WasClaimed) && k.routed == CountWhere(endings, WasRouted)
    && k.outboundAccepted == CountWhere(endings, WasAccepted)
    && k.duplicates == CountOf(endings, Duplicated) && k.conflicts == CountOf(endings, Conflicted)
    && k.unbound == CountOf(endings, Unbound) && k.routeAttachFailed == CountOf(endings, AttachFailed)
    && k.routingErrors == CountOf(endings, RoutingError) && k.executionErrors == CountOf(endings, ExecutionError)
    && k.outboundRejected == CountOf(endings, OutboundRejected)
    && k.outboundIndeterminate == CountOf(endings, OutboundIndeterminate)
    && k.completed == CountOf(endings, Completion)
    && k.completionPersistFailed == CountOf(endings, CompletionPersistFailed)
  }

  lemma {:induction false} EveryEndingIsCounted(endings: seq<Ending>)
    requires Aborted !in endings
    ensures |endings| == CountWhere(endings, WasClaimed) + CountOf(endings, Duplicated) + CountOf(endings, Conflicted)
    ensures CountWhere(endings, WasClaimed)
         == CountOf(endings, Unbound) + CountOf(endings, AttachFailed) + CountOf(endings, RoutingError)
           + CountWhere(endings, WasRouted)
    ensures CountWhere(endings, WasRouted)
         == CountOf(endings, ExecutionError) + CountWhere(endings, WasAccepted) + CountOf(endings, OutboundRejected)
            + CountOf(endings, OutboundIndeterminate)
    ensures CountWhere(endings, WasAccepted) == CountOf(endings, Completion) + CountOf(endings, CompletionPersistFailed)
  {
    if endings != [] {
      EveryEndingIsCounted(endings[..|endings| - 1]);
      assert endings[|endings| - 1] in endings;
    }
  }

  /** Conservation: nothing is lost or counted twice, for every pattern of outcomes of a loop that ran to its end. */
  lemma Conservation(k: Counters, endings: seq<Ending>)
    requires Counts(k, endings) && Aborted !in endings
    ensures |endings| == k.claimed + k.duplicates + k.conflicts
    ensures k.claimed == k.unbound + k.routeAttachFailed + k.routingErrors + k.routed
    ensures k.routed == k.executionErrors + k.outboundAccepted + k.outboundRejected + k.outboundIndeterminate
    ensures k.outboundAccepted == k.completed + k.completionPersistFailed
  {
    EveryEndingIsCounted(endings);
  }

  // The loop

  datatype Loop = Loop(rows: Rows, directory: Directory, endings: seq<Ending>)

  /** The loop after n messages; an aborted claim is its last ending. */
  function LoopAfter(rows: Rows, d: Directory, channels: Channels, messages: seq<Message>, scripts: seq<Script>,
      n: nat): (l: Loop)
    requires n <= |messages| == |scripts|
    ensures |l.endings| <= n && (Aborted !in l.endings ==> |l.endings| == n)
  {
    if n == 0 then Loop(rows, d, [])
    else
      var l := LoopAfter(rows, d, channels, messages, scripts, n - 1);
      if Aborted in l.endings then l
      else
        var o := Handle(l.rows, l.directory, channels, messages[n - 1], scripts[n - 1]);
        Loop(o.rows, o.directory, l.endings + [o.ending])
  }

  lemma {:induction false} AbortStays(rows: Rows, d: Directory, channels: Channels, messages: seq<Message>,
      scripts: seq<Script>, m: nat, n: nat)
    requires m <= n <= |messages| == |scripts| && Aborted in LoopAfter(rows, d, channels, messages, scripts, m).endings
    ensures LoopAfter(rows, d, channels, messages, scripts, n) == LoopAfter(rows, d, channels, messages, scripts, m)
  {
    if m < n { AbortStays(rows, d, channels, messages, scripts, m, n - 1); }
  }

  lemma CountGrows(endings: seq<Ending>, e: Ending)
    ensures forall x :: CountOf(endings + [e], x) == CountOf(endings, x) + if e == x then 1 else 0
    ensures CountWhere(endings + [e], WasClaimed) == CountWhere(endings, WasClaimed) + if WasClaimed(e) then 1 else 0
    ensures CountWhere(endings + [e], WasRouted) == CountWhere(endings, WasRouted) + if WasRouted(e) then 1 else 0
    ensures CountWhere(endings + [e], WasAccepted) == CountWhere(endings, WasAccepted) + if WasAccepted(e) then 1 else 0
  {
    assert (endings + [e])[..|endings|] == endings;
  }

  /** A statement with a script: it takes effect unless it throws before. */
  method MarkFailedSwallowed(table: RouterTable, key: Key, reply: Reply)
    modifies table`rows
    ensures table.rows == FailedRows(old(table.rows), key, reply)
  {
    if Takes(reply) { var _ := table.MarkMessageFailed(key); }
  }

  method MarkIndeterminateSwallowed(table: RouterTable, key: Key, reply: Reply)
    modifies table`rows
    ensures table.rows == DoubtedRows(old(table.rows), key, reply)
  {
    if Takes(reply) { var _ := table.MarkMessageIndeterminate(key); }
  }

  method GiveUp(table: RouterTable, key: Key, s: Script, ending: Ending) returns (e: Ending)
    modifies table`rows
    ensures Outcome(table.rows, table.directory, e) == GivenUp(old(table.rows), table.directory, key, s, ending)
  {
    MarkFailedSwallowed(table, key, s.mark);
    if s.mark.Ok? {
      return ending;
    }
    MarkFailedSwallowed(table, key, s.swallowed);
    e := RoutingError;
  }

  method Serve(table: RouterTable, key: Key, s: Script, k: Counters) returns (e: Ending, counters: Counters)
    modifies table`rows
    ensures Outcome(table.rows, table.directory, e) == Served(old(table.rows), table.directory, key, s)
    ensures counters == match e
                        case ExecutionError => k.(executionErrors := k.executionErrors + 1)
                        case OutboundRejected => k.(outboundRejected := k.outboundRejected + 1)
                        case OutboundIndeterminate => k.(outboundIndeterminate := k.outboundIndeterminate + 1)
                        case Completion => k.(outboundAccepted := k.outboundAccepted + 1, completed := k.completed + 1)
                        case _ => k.(outboundAccepted := k.outboundAccepted + 1,
                          completionPersistFailed := k.completionPersistFailed + 1)
  {
    counters := k;
    if !s.responds {
      MarkFailedSwallowed(table, key, s.swallowed);
      return ExecutionError, counters.(executionErrors := counters.executionErrors + 1);
    }
    var outcome := OutcomeOf(s.send);
    if outcome.Unknown? {
      MarkIndeterminateSwallowed(table, key, s.swallowed);
      return OutboundIndeterminate, counters.(outboundIndeterminate := counters.outboundIndeterminate + 1);
    }
    if outcome.Rejected? {
      MarkFailedSwallowed(table, key, s.swallowed);
      return OutboundRejected, counters.(outboundRejected := counters.outboundRejected + 1);
    }
    counters := counters.(outboundAccepted := counters.outboundAccepted + 1);
    var ok := false;
    if Takes(s.complete) { ok := table.CompleteMessage(key); }
    if s.complete.Ok? && ok {
      return Completion, counters.(completed := counters.completed + 1);
    }
    MarkIndeterminateSwallowed(table, key, s.swallowed);
    e, counters := CompletionPersistFailed, counters.(completionPersistFailed := counters.completionPersistFailed + 1);
  }

  /** The routing try block of a claimed message. */
  method Route(table: RouterTable, message: Message, s: Script) returns (ending: Option<Ending>)
    modifies table`rows, table`directory
    ensures RouteOf(old(table.rows), old(table.directory), table.channels, message, s)
         == if ending.Some? then Ended(Outcome(table.rows, table.directory, ending.value))
           else RoutedOn(table.rows, table.directory)
    ensures ending.Some? ==> ending.value.Unbound? || ending.value.AttachFailed? || ending.value.RoutingError?
  {
    var key := KeyOf(message);
    var route := None;
    if Takes(s.resolve) { route := table.Resolve(message, s.newCustomer, s.newConversation); }
    if s.resolve.Throws? {
      MarkFailedSwallowed(table, key, s.swallowed);
      return Some(RoutingError);
    }
    if route.None? {
      var e := GiveUp(table, key, s, Unbound);
      return Some(e);
    }
    var ok := false;
    if Takes(s.attach) { ok := table.Attach(key, route.value); }
    if s.attach.Throws? {
      MarkFailedSwallowed(table, key, s.swallowed);
      return Some(RoutingError);
    }
    if !ok {
      var e := GiveUp(table, key, s, AttachFailed);
      return Some(e);
    }
    ending := None;
  }

  function CountedEnding(k: Counters, e: Ending): Counters {
    var k := if WasClaimed(e) then k.(claimed := k.claimed + 1) else k;
    var k := if WasRouted(e) then k.(routed := k.routed + 1) else k;
    var k := if WasAccepted(e) then k.(outboundAccepted := k.outboundAccepted + 1) else k;
    match e
    case Duplicated => k.(duplicates := k.duplicates + 1)
    case Conflicted => k.(conflicts := k.conflicts + 1)
    case Unbound => k.(unbound := k.unbound + 1)
    case AttachFailed => k.(routeAttachFailed := k.routeAttachFailed + 1)
    case RoutingError => k.(routingErrors := k.routingErrors + 1)
    case ExecutionError => k.(executionErrors := k.executionErrors + 1)
    case OutboundRejected => k.(outboundRejected := k.outboundRejected + 1)
    case OutboundIndeterminate => k.(outboundIndeterminate := k.outboundIndeterminate + 1)
    case Completion => k.(completed := k.completed + 1)
    case CompletionPersistFailed => k.(completionPersistFailed := k.completionPersistFailed + 1)
    case Aborted => k
  }

  lemma CountsStep(k: Counters, endings: seq<Ending>, e: Ending)
    requires Counts(k, endings)
    ensures Counts(CountedEnding(k, e), endings + [e])
  {
    CountGrows(endings, e);
  }

  /** The body of the loop for one message. */
  method HandleOne(table: RouterTable, message: Message, s: Script, k: Counters)
    returns (ending: Ending, counters: Counters)
    modifies table`rows, table`directory
    ensures Outcome(table.rows, table.directory, ending)
      == Handle(old(table.rows), old(table.directory), table.channels, message, s)
    ensures counters == CountedEnding(k, ending)
  {
    counters := k;
    var status := Duplicate;
    if Takes(s.claim) { status := table.ClaimMessage(message); }
    if s.claim.Throws? {
      return Aborted, counters;
    }
    if status.Duplicate? {
      return Duplicated, counters.(duplicates := counters.duplicates + 1);
    }
    if status.Conflict? {
      return Conflicted, counters.(conflicts := counters.conflicts + 1);
    }
    counters := counters.(claimed := counters.claimed + 1);
    var stopped := Route(table, message, s);
    if stopped.Some? {
      ending := stopped.value;
      if ending.Unbound? { counters := counters.(unbound := counters.unbound + 1); }
      if ending.AttachFailed? { counters := counters.(routeAttachFailed := counters.routeAttachFailed + 1); }
      if ending.RoutingError? { counters := counters.(routingErrors := counters.routingErrors + 1); }
      return;
    }
    counters := counters.(routed := counters.routed + 1);
    ending, counters := Serve(table, KeyOf(message), s, counters);
  }

  lemma LoopStep(rows: Rows, d: Directory, channels: Channels, messages: seq<Message>, scripts: seq<Script>, n: nat,
      l: Loop, o: Outcome)
    requires n < |messages| == |scripts| && l == LoopAfter(rows, d, channels, messages, scripts, n)
      && Aborted !in l.endings
    requires o == Handle(l.rows, l.directory, channels, messages[n], scripts[n])
    ensures LoopAfter(rows, d, channels, messages, scripts, n + 1) == Loop(o.rows, o.directory, l.endings + [o.ending])
  {
  }

  /** routeWeComCustomerTexts: returns the counters, unless a claim threw. */
  method RouteTexts(table: RouterTable, messages: seq<Message>, scripts: seq<Script>)
    returns (result: Option<Counters>, ghost endings: seq<Ending>)
    requires |messages| == |scripts|
    modifies table`rows, table`directory
    ensures LoopAfter(old(table.rows), old(table.directory), table.channels, messages, scripts, |messages|)
         == Loop(table.rows, table.directory, endings)
    ensures result.None? <==> Aborted in endings
    ensures result.Some? ==> Counts(result.value, endings)
  {
    var counters := Zero;
    endings := [];
    for n := 0 to |messages|
      invariant LoopAfter(old(table.rows), old(table.directory), table.channels, messages, scripts, n)
             == Loop(table.rows, table.directory, endings)
      invariant Aborted !in endings && Counts(counters, endings)
    {
      var ending;
      ghost var before, l := counters, Loop(table.rows, table.directory, endings);
      ending, counters := HandleOne(table, messages[n], scripts[n], counters);
      LoopStep(old(table.rows), old(table.directory), table.channels, messages, scripts, n, l,
        Outcome(table.rows, table.directory, ending));
      CountsStep(before, endings, ending);
      endings := endings + [ending];
      if ending.Aborted? {
        AbortStays(old(table.rows), old(table.directory), table.channels, messages, scripts, n + 1, |messages|);
        return None, endings;
      }
    }
    result := Some(counters);
  }

  // Counters against the table

  /** A message counted as completed is completed in the table, and a message this loop claimed that is completed in the
  table was counted as accepted. */
  predicate Reported(rows: Rows, k: Key, e: Ending) {
    && (e.Completion? ==> k in rows && rows[k].state.Completed?)
    && (WasClaimed(e) ==> k in rows && (rows[k].state.Completed? ==> WasAccepted(e)))
  }

  lemma ServedReports(rows: Rows, d: Directory, k: Key, s: Script)
    requires k in rows && !rows[k].state.Completed?
    ensures var o := Served(rows, d, k, s); Reported(o.rows, k, o.ending)
  {
  }

  lemma RouteReports(rows: Rows, d: Directory, channels: Channels, m: Message, s: Script)
    requires KeyOf(m) in rows && !rows[KeyOf(m)].state.Completed?
    ensures match RouteOf(rows, d, channels, m, s)
            case Ended(o) => Reported(o.rows, KeyOf(m), o.ending)
            case RoutedOn(routed, _) => KeyOf(m) in routed && !routed[KeyOf(m)].state.Completed?
  {
  }

  lemma HandleReports(rows: Rows, d: Directory, channels: Channels, m: Message, s: Script)
    ensures var o := Handle(rows, d, channels, m, s); Reported(o.rows, KeyOf(m), o.ending)
  {
    var (claimed, status) := Claim(rows, m);
    if s.claim.Ok? && status.Claimed? {
      RouteReports(claimed, d, channels, m, s);
      var routing := RouteOf(claimed, d, channels, m, s);
      if routing.RoutedOn? { ServedReports(routing.rows, routing.directory, KeyOf(m), s); }
    }
  }

  /** Only the row of k is touched. */
  ghost predicate Spares(before: Rows, after: Rows, k: Key) {
    forall j :: j in before && j != k ==> j in after && after[j] == before[j]
  }

  lemma ServedSpares(rows: Rows, d: Directory, k: Key, s: Script)
    ensures Spares(rows, Served(rows, d, k, s).rows, k)
  {
  }

  lemma FailedSpares(rows: Rows, k: Key, r: Reply)
    ensures Spares(rows, FailedRows(rows, k, r), k)
  {
  }

  lemma SparesTwice(a: Rows, b: Rows, c: Rows, k: Key)
    requires Spares(a, b, k) && Spares(b, c, k)
    ensures Spares(a, c, k)
  {
  }

  lemma GivenUpSpares(rows: Rows, d: Directory, k: Key, s: Script, ending: Ending)
    ensures Spares(rows, GivenUp(rows, d, k, s, ending).rows, k)
  {
    var marked := FailedRows(rows, k, s.mark);
    FailedSpares(rows, k, s.mark);
    FailedSpares(marked, k, s.swallowed);
    SparesTwice(rows, marked, FailedRows(marked, k, s.swallowed), k);
  }

  lemma RouteSpares(rows: Rows, d: Directory, channels: Channels, m: Message, s: Script)
    ensures match RouteOf(rows, d, channels, m, s)
            case Ended(o) => Spares(rows, o.rows, KeyOf(m))
            case RoutedOn(routed, _) => Spares(rows, routed, KeyOf(m))
  {
    var k := KeyOf(m);
    var (resolved, route) := ResolveRoute(d, channels, m, s.newCustomer, s.newConversation);
    FailedSpares(rows, k, s.swallowed);
    GivenUpSpares(rows, resolved, k, s, Unbound);
    GivenUpSpares(rows, resolved, k, s, AttachFailed);
    if route.Some? {
      var attached := AttachRoute(rows, k, route.value).0;
      assert Spares(rows, attached, k);
      FailedSpares(attached, k, s.swallowed);
      SparesTwice(rows, attached, FailedRows(attached, k, s.swallowed), k);
    }
  }

  /** Handling a message again, or another one, leaves the rows that were there alone. */
  lemma HandleKeeps(rows: Rows, d: Directory, channels: Channels, m: Message, s: Script, k: Key)
    requires k in rows
    ensures var after := Handle(rows, d, channels, m, s).rows; k in after && after[k] == rows[k]
  {
    var (claimed, status) := Claim(rows, m);
    if s.claim.Ok? && status.Claimed? {
      RouteSpares(claimed, d, channels, m, s);
      var routing := RouteOf(claimed, d, channels, m, s);
      if routing.RoutedOn? { ServedSpares(routing.rows, routing.directory, KeyOf(m), s); }
    }
  }

  lemma HandleKeepsReports(l: Loop, channels: Channels, m: Message, s: Script, k: Key, ending: Ending)
    requires Reported(l.rows, k, ending)
    ensures Reported(Handle(l.rows, l.directory, channels, m, s).rows, k, ending)
  {
    if k in l.rows { HandleKeeps(l.rows, l.directory, channels, m, s, k); }
  }

  lemma {:induction false} LoopReports(rows: Rows, d: Directory, channels: Channels, messages: seq<Message>,
      scripts: seq<Script>, n: nat, i: nat)
    requires n <= |messages| == |scripts|
    requires i < |LoopAfter(rows, d, channels, messages, scripts, n).endings|
    ensures var l := LoopAfter(rows, d, channels, messages, scripts, n);
      Reported(l.rows, KeyOf(messages[i]), l.endings[i])
  {
    var l := LoopAfter(rows, d, channels, messages, scripts, n - 1);
    if Aborted !in l.endings {
      HandleReports(l.rows, l.directory, channels, messages[n - 1], scripts[n - 1]);
      if i < n - 1 {
        LoopReports(rows, d, channels, messages, scripts, n - 1, i);
        HandleKeepsReports(l, channels, messages[n - 1], scripts[n - 1], KeyOf(messages[i]), l.endings[i]);
      }
    } else {
      LoopReports(rows, d, channels, messages, scripts, n - 1, i);
    }
  }

  /** How many messages this loop claimed are completed in the table. */
  function CompletedRows(rows: Rows, messages: seq<Message>, endings: seq<Ending>): nat
    requires |endings| <= |messages|
  {
    if endings == [] then 0
    else
      var i := |endings| - 1;
      var k := KeyOf(messages[i]);
      CompletedRows(rows, messages, endings[..i])
        + if WasClaimed(endings[i]) && k in rows && rows[k].state.Completed? then 1 else 0
  }

  lemma {:induction false} CompletedBetween(rows: Rows, messages: seq<Message>, endings: seq<Ending>)
    requires |endings| <= |messages|
      && forall i :: 0 <= i < |endings| ==> Reported(rows, KeyOf(messages[i]), endings[i])
    ensures CountOf(endings, Completion) <= CompletedRows(rows, messages, endings) <= CountWhere(endings, WasAccepted)
  {
    if endings != [] {
      var i := |endings| - 1;
      CompletedBetween(rows, messages, endings[..i]);
      assert Reported(rows, KeyOf(messages[i]), endings[i]);
    }
  }

  /** With acknowledgements lost, the completed counter may fall short of the completed rows, and those never exceed the
  accepted sends. */
  lemma CompletedIsHonest(rows: Rows, d: Directory, channels: Channels, messages: seq<Message>, scripts: seq<Script>,
      k: Counters)
    requires |messages| == |scripts| && Counts(k, LoopAfter(rows, d, channels, messages, scripts, |messages|).endings)
    ensures var l := LoopAfter(rows, d, channels, messages, scripts, |messages|);
            k.completed <= CompletedRows(l.rows, messages, l.endings) <= k.outboundAccepted
  {
    var l := LoopAfter(rows, d, channels, messages, scripts, |messages|);
    forall i | 0 <= i < |l.endings| ensures Reported(l.rows, KeyOf(messages[i]), l.endings[i]) {
      LoopReports(rows, d, channels, messages, scripts, |messages|, i);
    }
    CompletedBetween(l.rows, messages, l.endings);
  }
}
