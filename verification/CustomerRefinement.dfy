/** The loop over one callback's messages is one of the interleavings that CustomerRouting speaks of: the one in which
no other callback gets a word in (src/enterprise/http-api.ts, routeWeComCustomerTexts). */
module CustomerRefinement {
  import opened Wrappers
  import opened WeComCustomer
  import L = CustomerLoop
  import C = CustomerRouting

  type Id = Wrappers.Id

  /** The answers one call gets, one after the other. */
  function Play(s: C.System, c: Id, replies: seq<C.Reply>): C.System
    decreases |replies|
  {
    if replies == [] then s else Play(C.Apply(s, C.Advance(c, replies[0])), c, replies[1..])
  }

  predicate At(s: C.System, c: Id, m: Message, stage: C.Stage) { c in s.calls && s.calls[c] == C.Call(m, stage) }

  /** n is s with the call over and the table and directory given. */
  predicate Leaves(s: C.System, n: C.System, c: Id, rows: Rows, d: Directory) {
    n.rows == rows && n.directory == d && n.channels == s.channels && n.calls == C.Without(s.calls, c)
  }

  function Answer(r: L.Reply): C.Reply { match r case Ok => C.Done case Throws(committed) => C.Lost(committed) }

  lemma PlayOne(s: C.System, c: Id, a: C.Reply)
    ensures Play(s, c, [a]) == C.Apply(s, C.Advance(c, a))
  {
    assert Play(s, c, [a]) == Play(C.Apply(s, C.Advance(c, a)), c, [a][1..]);
  }

  lemma PlayFirst(s: C.System, c: Id, a: C.Reply, rest: seq<C.Reply>)
    ensures Play(s, c, [a] + rest) == Play(C.Apply(s, C.Advance(c, a)), c, rest)
  {
    assert ([a] + rest)[1..] == rest;
  }

  /** A step that moves only this call. */
  predicate Continues(s: C.System, n: C.System, c: Id, m: Message, stage: C.Stage, rows: Rows, d: Directory) {
    && At(n, c, m, stage) && n.rows == rows && n.directory == d && n.channels == s.channels
    && C.Without(n.calls, c) == C.Without(s.calls, c)
  }

  lemma LeavesLater(s: C.System, n: C.System, e: C.System, c: Id, m: Message, stage: C.Stage, rows: Rows, d: Directory)
    requires Continues(s, n, c, m, stage, n.rows, n.directory) && Leaves(n, e, c, rows, d)
    ensures Leaves(s, e, c, rows, d)
  {
  }

  lemma FailingEnds(s: C.System, c: Id, m: Message, r: L.Reply)
    requires At(s, c, m, C.Failing)
    ensures Leaves(s, Play(s, c, [Answer(r)]), c, L.FailedRows(s.rows, KeyOf(m), r), s.directory)
  {
    PlayOne(s, c, Answer(r));
  }

  lemma DoubtingEnds(s: C.System, c: Id, m: Message, r: L.Reply)
    requires At(s, c, m, C.Doubting)
    ensures Leaves(s, Play(s, c, [Answer(r)]), c, L.DoubtedRows(s.rows, KeyOf(m), r), s.directory)
  {
    PlayOne(s, c, Answer(r));
  }

  // Giving up

  function GivenUpReplies(sc: L.Script): seq<C.Reply> {
    [Answer(sc.mark)] + if sc.mark.Ok? then [] else [Answer(sc.swallowed)]
  }

  lemma GivenUpEnds(s: C.System, c: Id, m: Message, sc: L.Script, ending: L.Ending)
    requires At(s, c, m, C.MarkingFailed)
    ensures var o := L.GivenUp(s.rows, s.directory, KeyOf(m), sc, ending);
            Leaves(s, Play(s, c, GivenUpReplies(sc)), c, o.rows, o.directory)
  {
    var n := C.Apply(s, C.Advance(c, Answer(sc.mark)));
    if sc.mark.Ok? {
      PlayFirst(s, c, Answer(sc.mark), []);
    } else {
      PlayFirst(s, c, Answer(sc.mark), [Answer(sc.swallowed)]);
      FailingEnds(n, c, m, sc.swallowed);
      LeavesLater(s, n, Play(n, c, [Answer(sc.swallowed)]), c, m, C.Failing,
        L.FailedRows(n.rows, KeyOf(m), sc.swallowed), n.directory);
    }
  }

  // Serving

  function Sent(w: Wire): C.Reply { C.Answered(C.End(w, w.Taken?)) }

  function CompleteReplies(rows: Rows, k: Key, sc: L.Script): seq<C.Reply> {
    [Answer(sc.complete)] + if sc.complete.Ok? && Complete(rows, k).1 then [] else [Answer(sc.swallowed)]
  }

  function SendReplies(rows: Rows, k: Key, sc: L.Script): seq<C.Reply> {
    [Sent(sc.send)] + if OutcomeOf(sc.send).Accepted? then CompleteReplies(rows, k, sc) else [Answer(sc.swallowed)]
  }

  function ServedReplies(rows: Rows, k: Key, sc: L.Script): seq<C.Reply> {
    if sc.responds then [C.Done] + SendReplies(rows, k, sc) else [C.Lost(true)] + [Answer(sc.swallowed)]
  }

  lemma CompletedEnds(s: C.System, c: Id, m: Message, route: Route, sc: L.Script)
    requires At(s, c, m, C.Completing(route)) && sc.responds && OutcomeOf(sc.send).Accepted?
    ensures var o := L.Served(s.rows, s.directory, KeyOf(m), sc);
            Leaves(s, Play(s, c, CompleteReplies(s.rows, KeyOf(m), sc)), c, o.rows, o.directory)
  {
    var n := C.Apply(s, C.Advance(c, Answer(sc.complete)));
    if sc.complete.Ok? && Complete(s.rows, KeyOf(m)).1 {
      PlayFirst(s, c, Answer(sc.complete), []);
    } else {
      PlayFirst(s, c, Answer(sc.complete), [Answer(sc.swallowed)]);
      DoubtingEnds(n, c, m, sc.swallowed);
      LeavesLater(s, n, Play(n, c, [Answer(sc.swallowed)]), c, m, C.Doubting,
        L.DoubtedRows(n.rows, KeyOf(m), sc.swallowed), n.directory);
    }
  }

  lemma SentEnds(s: C.System, c: Id, m: Message, route: Route, sc: L.Script)
    requires At(s, c, m, C.Sending(route)) && sc.responds
    ensures var o := L.Served(s.rows, s.directory, KeyOf(m), sc);
            Leaves(s, Play(s, c, SendReplies(s.rows, KeyOf(m), sc)), c, o.rows, o.directory)
  {
    var n, o := C.Apply(s, C.Advance(c, Sent(sc.send))), L.Served(s.rows, s.directory, KeyOf(m), sc);
    match OutcomeOf(sc.send)
    case Accepted =>
      PlayFirst(s, c, Sent(sc.send), CompleteReplies(s.rows, KeyOf(m), sc));
      CompletedEnds(n, c, m, route, sc);
      LeavesLater(s, n, Play(n, c, CompleteReplies(s.rows, KeyOf(m), sc)), c, m, C.Completing(route), o.rows,
        o.directory);
    case Rejected =>
      PlayFirst(s, c, Sent(sc.send), [Answer(sc.swallowed)]);
      FailingEnds(n, c, m, sc.swallowed);
      LeavesLater(s, n, Play(n, c, [Answer(sc.swallowed)]), c, m, C.Failing, o.rows, o.directory);
    case Unknown =>
      PlayFirst(s, c, Sent(sc.send), [Answer(sc.swallowed)]);
      DoubtingEnds(n, c, m, sc.swallowed);
      LeavesLater(s, n, Play(n, c, [Answer(sc.swallowed)]), c, m, C.Doubting, o.rows, o.directory);
  }

  lemma ServedEnds(s: C.System, c: Id, m: Message, route: Route, sc: L.Script)
    requires At(s, c, m, C.Responding(route))
    ensures var o := L.Served(s.rows, s.directory, KeyOf(m), sc);
            Leaves(s, Play(s, c, ServedReplies(s.rows, KeyOf(m), sc)), c, o.rows, o.directory)
  {
    var o := L.Served(s.rows, s.directory, KeyOf(m), sc);
    if sc.responds {
      var n := C.Apply(s, C.Advance(c, C.Done));
      PlayFirst(s, c, C.Done, SendReplies(s.rows, KeyOf(m), sc));
      SentEnds(n, c, m, route, sc);
      LeavesLater(s, n, Play(n, c, SendReplies(s.rows, KeyOf(m), sc)), c, m, C.Sending(route), o.rows, o.directory);
    } else {
      var n := C.Apply(s, C.Advance(c, C.Lost(true)));
      PlayFirst(s, c, C.Lost(true), [Answer(sc.swallowed)]);
      FailingEnds(n, c, m, sc.swallowed);
      LeavesLater(s, n, Play(n, c, [Answer(sc.swallowed)]), c, m, C.Failing, o.rows, o.directory);
    }
  }

  // Routing

  /** What happens to a claimed message: it ended, or was served. */
  function Routed(rows: Rows, d: Directory, channels: Channels, m: Message, sc: L.Script): L.Outcome {
    match L.RouteOf(rows, d, channels, m, sc)
    case Ended(outcome) => outcome
    case RoutedOn(routed, directory) => L.Served(routed, directory, KeyOf(m), sc)
  }

  function AttachReplies(rows: Rows, k: Key, route: Route, sc: L.Script): seq<C.Reply> {
    var (attached, ok) := AttachRoute(rows, k, route);
    [Answer(sc.attach)]
    + if sc.attach.Throws? then
      [Answer(sc.swallowed)] else if !ok then GivenUpReplies(sc) else ServedReplies(attached, k, sc)
  }

  function RouteReplies(rows: Rows, d: Directory, channels: Channels, m: Message, sc: L.Script): seq<C.Reply> {
    var route := ResolveRoute(d, channels, m, sc.newCustomer, sc.newConversation).1;
    if sc.resolve == L.Throws(false) then [C.Lost(false)] + [Answer(sc.swallowed)]
    else
      [C.Fresh(sc.newCustomer, sc.newConversation, sc.resolve.Throws?)]
      + if sc.resolve.Throws? then [Answer(sc.swallowed)]
        else if route.None? then GivenUpReplies(sc) else AttachReplies(rows, KeyOf(m), route.value, sc)
  }

  /** What attaching the route and everything after it come to. */
  function Attached(rows: Rows, d: Directory, m: Message, route: Route, sc: L.Script): L.Outcome {
    var k := KeyOf(m);
    var (attached, ok) := AttachRoute(rows, k, route);
    if sc.attach.Throws?
    then L.Outcome(L.FailedRows(if sc.attach.committed then attached else rows, k, sc.swallowed), d, L.RoutingError)
    else if !ok then L.GivenUp(rows, d, k, sc, L.AttachFailed)
    else L.Served(attached, d, k, sc)
  }

  lemma AttachedEnds(s: C.System, c: Id, m: Message, route: Route, sc: L.Script)
    requires At(s, c, m, C.Attaching(route))
    ensures var o := Attached(s.rows, s.directory, m, route, sc);
            Leaves(s, Play(s, c, AttachReplies(s.rows, KeyOf(m), route, sc)), c, o.rows, o.directory)
  {
    var n, o, k := C.Apply(s, C.Advance(c, Answer(sc.attach))), Attached(s.rows, s.directory, m, route, sc), KeyOf(m);
    var (attached, ok) := AttachRoute(s.rows, k, route);
    if sc.attach.Throws? {
      PlayFirst(s, c, Answer(sc.attach), [Answer(sc.swallowed)]);
      FailingEnds(n, c, m, sc.swallowed);
      LeavesLater(s, n, Play(n, c, [Answer(sc.swallowed)]), c, m, C.Failing, o.rows, o.directory);
    } else if !ok {
      PlayFirst(s, c, Answer(sc.attach), GivenUpReplies(sc));
      GivenUpEnds(n, c, m, sc, L.AttachFailed);
      LeavesLater(s, n, Play(n, c, GivenUpReplies(sc)), c, m, C.MarkingFailed, o.rows, o.directory);
    } else {
      PlayFirst(s, c, Answer(sc.attach), ServedReplies(attached, k, sc));
      ServedEnds(n, c, m, route, sc);
      LeavesLater(s, n, Play(n, c, ServedReplies(attached, k, sc)), c, m, C.Responding(route), o.rows, o.directory);
    }
  }

  lemma RoutedEnds(s: C.System, c: Id, m: Message, sc: L.Script)
    requires At(s, c, m, C.Resolving) && sc.newConversation !in s.directory.conversations
    ensures var o := Routed(s.rows, s.directory, s.channels, m, sc);
            Leaves(s, Play(s, c, RouteReplies(s.rows, s.directory, s.channels, m, sc)), c, o.rows, o.directory)
  {
    var o, k := Routed(s.rows, s.directory, s.channels, m, sc), KeyOf(m);
    var (directory, route) := ResolveRoute(s.directory, s.channels, m, sc.newCustomer, sc.newConversation);
    if sc.resolve == L.Throws(false) {
      var n := C.Apply(s, C.Advance(c, C.Lost(false)));
      PlayFirst(s, c, C.Lost(false), [Answer(sc.swallowed)]);
      FailingEnds(n, c, m, sc.swallowed);
      LeavesLater(s, n, Play(n, c, [Answer(sc.swallowed)]), c, m, C.Failing, o.rows, o.directory);
    } else {
      ResolvedEnds(s, c, m, sc, directory, route);
    }
  }

  lemma ResolvedEnds(s: C.System, c: Id, m: Message, sc: L.Script, directory: Directory, route: Option<Route>)
    requires At(s, c, m, C.Resolving) && sc.newConversation !in s.directory.conversations
      && sc.resolve != L.Throws(false)
    requires (directory, route) == ResolveRoute(s.directory, s.channels, m, sc.newCustomer, sc.newConversation)
    ensures var o := Routed(s.rows, s.directory, s.channels, m, sc);
            Leaves(s, Play(s, c, RouteReplies(s.rows, s.directory, s.channels, m, sc)), c, o.rows, o.directory)
  {
    var o, k := Routed(s.rows, s.directory, s.channels, m, sc), KeyOf(m);
    var fresh_ := C.Fresh(sc.newCustomer, sc.newConversation, sc.resolve.Throws?);
    var n := C.Apply(s, C.Advance(c, fresh_));
    if sc.resolve.Throws? {
      PlayFirst(s, c, fresh_, [Answer(sc.swallowed)]);
      FailingEnds(n, c, m, sc.swallowed);
      LeavesLater(s, n, Play(n, c, [Answer(sc.swallowed)]), c, m, C.Failing, o.rows, o.directory);
    } else if route.None? {
      PlayFirst(s, c, fresh_, GivenUpReplies(sc));
      GivenUpEnds(n, c, m, sc, L.Unbound);
      LeavesLater(s, n, Play(n, c, GivenUpReplies(sc)), c, m, C.MarkingFailed, o.rows, o.directory);
    } else {
      PlayFirst(s, c, fresh_, AttachReplies(s.rows, k, route.value, sc));
      AttachedEnds(n, c, m, route.value, sc);
      LeavesLater(s, n, Play(n, c, AttachReplies(s.rows, k, route.value, sc)), c, m, C.Attaching(route.value), o.rows,
        o.directory);
    }
  }

  // One message, and the loop

  function HandleReplies(rows: Rows, d: Directory, channels: Channels, m: Message, sc: L.Script): seq<C.Reply> {
    var (claimed, status) := Claim(rows, m);
    [Answer(sc.claim)] + if sc.claim.Ok? && status.Claimed? then RouteReplies(claimed, d, channels, m, sc) else []
  }

  lemma ClaimedEnds(s: C.System, c: Id, m: Message, sc: L.Script)
    requires At(s, c, m, C.Claiming) && sc.newConversation !in s.directory.conversations
    ensures var o := L.Handle(s.rows, s.directory, s.channels, m, sc);
            Leaves(s, Play(s, c, HandleReplies(s.rows, s.directory, s.channels, m, sc)), c, o.rows, o.directory)
  {
    var (claimed, status) := Claim(s.rows, m);
    var n := C.Apply(s, C.Advance(c, Answer(sc.claim)));
    if sc.claim.Ok? && status.Claimed? {
      var o := Routed(claimed, s.directory, s.channels, m, sc);
      PlayFirst(s, c, Answer(sc.claim), RouteReplies(claimed, s.directory, s.channels, m, sc));
      RoutedEnds(n, c, m, sc);
      LeavesLater(s, n, Play(n, c, RouteReplies(claimed, s.directory, s.channels, m, sc)), c, m, C.Resolving, o.rows,
        o.directory);
    } else {
      PlayFirst(s, c, Answer(sc.claim), []);
    }
  }

  function Steps(c: Id, replies: seq<C.Reply>): seq<C.Step> {
    seq(|replies|, i requires 0 <= i < |replies| => C.Advance(c, replies[i]))
  }

  lemma {:induction false} RunMore(s: C.System, steps: seq<C.Step>, more: seq<C.Step>)
    ensures C.Run(s, steps + more) == C.Run(C.Run(s, steps), more)
  {
    if more == [] {
      assert steps + more == steps;
    } else {
      var init := more[..|more| - 1];
      RunMore(s, steps, init);
      assert (steps + more)[..|steps + more| - 1] == steps + init;
    }
  }

  lemma {:induction false} PlayIsRun(s: C.System, c: Id, replies: seq<C.Reply>)
    ensures Play(s, c, replies) == C.Run(s, Steps(c, replies))
    decreases |replies|
  {
    if replies != [] {
      var first := [C.Advance(c, replies[0])];
      PlayIsRun(C.Apply(s, first[0]), c, replies[1..]);
      assert Steps(c, replies) == first + Steps(c, replies[1..]);
      RunMore(s, first, Steps(c, replies[1..]));
      assert first[..0] == [] && C.Run(s, first) == C.Apply(s, first[0]);
    }
  }

  /** Handling a message is a run of its steps: the table, the directory and the other calls end up the same. */
  lemma HandleIsARun(s: C.System, c: Id, m: Message, sc: L.Script) returns (steps: seq<C.Step>)
    requires c !in s.calls && sc.newConversation !in s.directory.conversations
    ensures var n, o := C.Run(s, steps), L.Handle(s.rows, s.directory, s.channels, m, sc);
            n.rows == o.rows && n.directory == o.directory && n.channels == s.channels && n.calls == s.calls
  {
    var receive := [C.Receive(c, m)];
    var n := C.Apply(s, receive[0]);
    var replies := HandleReplies(s.rows, s.directory, s.channels, m, sc);
    ClaimedEnds(n, c, m, sc);
    PlayIsRun(n, c, replies);
    assert receive[..0] == [] && C.Run(s, receive) == n;
    RunMore(s, receive, Steps(c, replies));
    assert C.Without(n.calls, c) == s.calls;
    steps := receive + Steps(c, replies);
  }

  /** The identifiers for new conversations are new when they are used. */
  predicate FreshIds(rows: Rows, d: Directory, channels: Channels, messages: seq<Message>, scripts: seq<L.Script>,
      n: nat)
    requires n <= |messages| == |scripts|
  {
    forall i :: 0 <= i < n
      ==> scripts[i].newConversation !in L.LoopAfter(rows, d, channels, messages, scripts, i).directory.conversations
  }

  /** The loop over any messages is a run of the transition system, from whatever state it finds, so that everything
  proved of all runs holds of it: its table and directory are those of the run, and no call is left. */
  lemma {:induction false} LoopIsARun(s: C.System, c: Id, messages: seq<Message>, scripts: seq<L.Script>, n: nat)
    returns (steps: seq<C.Step>)
    requires c !in s.calls && n <= |messages| == |scripts|
      && FreshIds(s.rows, s.directory, s.channels, messages, scripts, n)
    ensures var e, l := C.Run(s, steps), L.LoopAfter(s.rows, s.directory, s.channels, messages, scripts, n);
            e.rows == l.rows && e.directory == l.directory && e.channels == s.channels && e.calls == s.calls
  {
    if n == 0 {
      steps := [];
    } else {
      steps := LoopIsARun(s, c, messages, scripts, n - 1);
      if L.Aborted !in L.LoopAfter(s.rows, s.directory, s.channels, messages, scripts, n - 1).endings {
        var more := HandleIsARun(C.Run(s, steps), c, messages[n - 1], scripts[n - 1]);
        RunMore(s, steps, more);
        steps := steps + more;
      }
    }
  }
}
