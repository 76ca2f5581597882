/** What the second half of a card callback does when nothing else comes in between: the feedback on the card and the
message to the customer, read off the answers of the statements and of the two platforms
(src/channels/wecom/staff.ts, deliverOnce and notifyCustomer). */
module StaffOutcomes {
  import opened Wrappers
  import opened BookingContracts
  import opened StoreOps
  import opened StaffDatabase
  import opened StaffProtocol

  /** What becomes of a statement: it returns, it fails, or it commits and its acknowledgement is lost. */
  datatype Statement = Returns | Breaks | Unacknowledged

  function ReplyOf(t: Statement): Reply { if t.Returns? then Done else Lost(t.Unacknowledged?) }

  /** The answers one delivery meets: to the statement that claims its column, to the call, to the recording. */
  datatype Delivered = Delivered(claim: Statement, answer: Delivery, record: Statement)

  /** The answers the whole second half meets; lookup is None for a query that fails, and otherwise whether the
  customer has a route. */
  datatype Script = Script(feedback: Delivered, lookup: Option<bool>, customer: Delivered, mark: Statement)

  function DeliveryReply(d: Delivered, stage: Stage): Reply {
    match stage
    case Claiming => ReplyOf(d.claim)
    case Sending => Answer(d.answer)
    case Recording(_) => ReplyOf(d.record)
  }

  function ReplyTo(script: Script, call: Call): Reply {
    match call
    case Delivering(_, channel, _, stage) =>
      DeliveryReply(if channel.Feedback? then script.feedback else script.customer, stage)
    case LookingUp(_) => if script.lookup.Some? then Reachable(script.lookup.value) else Lost(false)
    case MarkingUnavailable(_) => ReplyOf(script.mark)
  }

  function StageRank(stage: Stage): nat {
    match stage
    case Claiming => 3
    case Sending => 2
    case Recording(_) => 1
  }

  function Rank(call: Call): nat {
    match call
    case Delivering(_, channel, _, stage) => (if channel.Feedback? then 5 else 1) + StageRank(stage)
    case LookingUp(_) => 5
    case MarkingUnavailable(_) => 1
  }

  /** Call c goes on for as long as it gets further. */
  function Play(s: System, c: Id, script: Script): System
    decreases if c in s.calls then Rank(s.calls[c]) else 0
  {
    if c !in s.calls then s
    else
      var next := Apply(s, Advance(c, ReplyTo(script, s.calls[c])));
      if c in next.calls && Rank(next.calls[c]) >= Rank(s.calls[c]) then next
      else if c !in next.calls then next
      else Play(next, c, script)
  }

  /** The call is at this point, its task has this row, and these effects have happened. */
  function Mid(s: System, c: Id, call: Call, row: Task, sent: seq<Effect>): System {
    System(s.db.(tasks := s.db.tasks[call.task := row]), s.calls[c := call], s.effects + sent, s.moves)
  }

  function End(s: System, c: Id, t: Id, row: Task, sent: seq<Effect>): System {
    System(s.db.(tasks := s.db.tasks[t := row]), Without(s.calls, c), s.effects + sent, s.moves)
  }

  lemma GoesOn(s: System, c: Id, script: Script, call: Call, row: Task, sent: seq<Effect>, next: Call, after: Task,
      more: seq<Effect>, over: System)
    requires Rank(next) < Rank(call)
    requires Apply(Mid(s, c, call, row, sent), Advance(c, ReplyTo(script, call))) == Mid(s, c, next, after, more)
    requires Play(Mid(s, c, next, after, more), c, script) == over
    ensures Play(Mid(s, c, call, row, sent), c, script) == over
  {
  }

  lemma IsOver(s: System, c: Id, script: Script, call: Call, row: Task, sent: seq<Effect>, over: System)
    requires c !in over.calls
    requires Apply(Mid(s, c, call, row, sent), Advance(c, ReplyTo(script, call))) == over
    ensures Play(Mid(s, c, call, row, sent), c, script) == over
  {
  }

  // One delivery

  /** Only a definite answer is recorded as such. */
  function Recorded(answer: Delivery): Delivery {
    match answer
    case Accepted => Accepted
    case Rejected => Rejected
    case _ => Indeterminate
  }

  /** The platform is called exactly if the column was free and the statement that takes it returned. */
  predicate Sends(column: Delivery, d: Delivered, text: Text) {
    column == NotSent && d.claim == Returns && text != CustomerText(Unprintable)
  }

  /** What is left in the column: taken before the call, overwritten only by a recording that committed. */
  function Left(column: Delivery, d: Delivered, text: Text): Delivery {
    if column != NotSent || d.claim == Breaks then column
    else if Sends(column, d, text) && d.record != Breaks then Recorded(d.answer)
    else Indeterminate
  }

  function Sent(column: Delivery, d: Delivered, t: Id, channel: Channel, text: Text): seq<Effect> {
    if Sends(column, d, text) then [Effect(t, channel, text, Recorded(d.answer))] else []
  }

  function Answers(script: Script, channel: Channel): Delivered {
    if channel.Feedback? then script.feedback else script.customer
  }

  predicate LooksUp(channel: Channel, text: Text) {
    channel == Feedback && text.FeedbackText? && text.outcome != Conflict
  }

  /** A delivery that is over goes on to the customer, or ends the call. */
  function Next(s: System, c: Id, t: Id, channel: Channel, text: Text, row: Task, sent: seq<Effect>): System {
    if LooksUp(channel, text) then Mid(s, c, LookingUp(t), row, sent) else End(s, c, t, row, sent)
  }

  lemma Finishes(s: System, c: Id, script: Script, t: Id, channel: Channel, text: Text, stage: Stage, row: Task,
      sent: seq<Effect>, after: Task, more: seq<Effect>, over: System)
    requires Apply(Mid(s, c, Delivering(t, channel, text, stage), row, sent),
                   Advance(c, ReplyTo(script, Delivering(t, channel, text, stage))))
          == Next(s, c, t, channel, text, after, more)
    requires Play(Next(s, c, t, channel, text, after, more), c, script) == over
    ensures Play(Mid(s, c, Delivering(t, channel, text, stage), row, sent), c, script) == over
  {
    if LooksUp(channel, text) {
      GoesOn(s, c, script, Delivering(t, channel, text, stage), row, sent, LookingUp(t), after, more, over);
    } else {
      IsOver(s, c, script, Delivering(t, channel, text, stage), row, sent, End(s, c, t, after, more));
    }
  }

  lemma PutTwice(tasks: map<Id, Task>, t: Id, a: Task, b: Task)
    ensures tasks[t := a][t := b] == tasks[t := b]
  {
  }

  lemma CallTwice(calls: map<Id, Call>, c: Id, a: Call, b: Call)
    ensures calls[c := a][c := b] == calls[c := b]
    ensures Without(calls[c := a], c) == Without(calls, c)
  {
  }

  lemma Claims(s: System, c: Id, script: Script, t: Id, channel: Channel, text: Text, row: Task, sent: seq<Effect>)
    requires Column(row, channel) == NotSent && Answers(script, channel).claim == Returns
    ensures Apply(Mid(s, c, Delivering(t, channel, text, Claiming), row, sent),
                  Advance(c, ReplyTo(script, Delivering(t, channel, text, Claiming))))
         == Mid(s, c, Delivering(t, channel, text, Sending), WithColumn(row, channel, Indeterminate), sent)
  {
    PutTwice(s.db.tasks, t, row, WithColumn(row, channel, Indeterminate));
    CallTwice(s.calls, c, Delivering(t, channel, text, Claiming), Delivering(t, channel, text, Sending));
  }

  lemma ClaimsNothing(s: System, c: Id, script: Script, t: Id, channel: Channel, text: Text, row: Task,
      sent: seq<Effect>)
    requires Column(row, channel) != NotSent || Answers(script, channel).claim != Returns
    ensures Apply(Mid(s, c, Delivering(t, channel, text, Claiming), row, sent),
                  Advance(c, ReplyTo(script, Delivering(t, channel, text, Claiming))))
         == Next(s, c, t, channel, text,
                 WithColumn(row, channel, Left(Column(row, channel), Answers(script, channel), text)), sent)
  {
    var after := WithColumn(row, channel, Left(Column(row, channel), Answers(script, channel), text));
    PutTwice(s.db.tasks, t, row, after);
    CallTwice(s.calls, c, Delivering(t, channel, text, Claiming), LookingUp(t));
  }

  lemma AsksPlatform(s: System, c: Id, script: Script, t: Id, channel: Channel, text: Text, row: Task,
      sent: seq<Effect>)
    requires text != CustomerText(Unprintable)
    ensures Apply(Mid(s, c, Delivering(t, channel, text, Sending), row, sent),
                  Advance(c, ReplyTo(script, Delivering(t, channel, text, Sending))))
         == Mid(s, c, Delivering(t, channel, text, Recording(Recorded(Answers(script, channel).answer))), row,
                sent + [Effect(t, channel, text, Recorded(Answers(script, channel).answer))])
  {
    var status := Recorded(Answers(script, channel).answer);
    assert SafeStatus(Answers(script, channel).answer) == status;
    CallTwice(s.calls, c, Delivering(t, channel, text, Sending), Delivering(t, channel, text, Recording(status)));
    assert s.effects + sent + [Effect(t, channel, text, status)]
        == s.effects + (sent + [Effect(t, channel, text, status)]);
  }

  lemma CannotPrint(s: System, c: Id, script: Script, t: Id, channel: Channel, text: Text, row: Task,
      sent: seq<Effect>)
    requires text == CustomerText(Unprintable)
    ensures Apply(Mid(s, c, Delivering(t, channel, text, Sending), row, sent),
                  Advance(c, ReplyTo(script, Delivering(t, channel, text, Sending))))
         == Mid(s, c, Delivering(t, channel, text, Recording(Indeterminate)), row, sent)
  {
    CallTwice(s.calls, c, Delivering(t, channel, text, Sending),
              Delivering(t, channel, text, Recording(Indeterminate)));
  }

  lemma Records(s: System, c: Id, script: Script, t: Id, channel: Channel, text: Text, status: Delivery, row: Task,
      sent: seq<Effect>)
    ensures Apply(Mid(s, c, Delivering(t, channel, text, Recording(status)), row, sent),
                  Advance(c, ReplyTo(script, Delivering(t, channel, text, Recording(status)))))
         == Next(s, c, t, channel, text,
                 if Answers(script, channel).record != Breaks then WithColumn(row, channel, status) else row, sent)
  {
    var after := if Answers(script, channel).record != Breaks then WithColumn(row, channel, status) else row;
    PutTwice(s.db.tasks, t, row, after);
    CallTwice(s.calls, c, Delivering(t, channel, text, Recording(status)), LookingUp(t));
  }

  /** From the moment its column is taken. */
  lemma FromSending(s: System, c: Id, script: Script, t: Id, channel: Channel, text: Text, row: Task,
      sent: seq<Effect>, over: System)
    requires Column(row, channel) == Indeterminate
    requires var d := Answers(script, channel);
             var printed := text != CustomerText(Unprintable);
             Play(Next(s, c, t, channel, text,
                       WithColumn(row, channel,
                                  if printed && d.record != Breaks then Recorded(d.answer) else Indeterminate),
                       sent + if printed then [Effect(t, channel, text, Recorded(d.answer))] else []), c, script)
             == over
    ensures Play(Mid(s, c, Delivering(t, channel, text, Sending), row, sent), c, script) == over
  {
    var d := Answers(script, channel);
    var printed := text != CustomerText(Unprintable);
    var status := if printed then Recorded(d.answer) else Indeterminate;
    var more := sent + if printed then [Effect(t, channel, text, Recorded(d.answer))] else [];
    var after := if d.record != Breaks then WithColumn(row, channel, status) else row;
    if printed {
      AsksPlatform(s, c, script, t, channel, text, row, sent);
    } else {
      CannotPrint(s, c, script, t, channel, text, row, sent);
      assert more == sent;
    }
    Records(s, c, script, t, channel, text, status, row, more);
    Finishes(s, c, script, t, channel, text, Recording(status), row, more, after, more, over);
    GoesOn(s, c, script, Delivering(t, channel, text, Sending), row, sent,
           Delivering(t, channel, text, Recording(status)), row, more, over);
  }

  /** One delivery from its claim on. */
  lemma DeliveredAlone(s: System, c: Id, script: Script, t: Id, channel: Channel, text: Text, row: Task,
      sent: seq<Effect>, over: System)
    requires var d, column := Answers(script, channel), Column(row, channel);
             Play(Next(s, c, t, channel, text, WithColumn(row, channel, Left(column, d, text)),
                       sent + Sent(column, d, t, channel, text)), c, script) == over
    ensures Play(Mid(s, c, Delivering(t, channel, text, Claiming), row, sent), c, script) == over
  {
    var d, column := Answers(script, channel), Column(row, channel);
    var after, more := WithColumn(row, channel, Left(column, d, text)), sent + Sent(column, d, t, channel, text);
    if column == NotSent && d.claim == Returns {
      var taken := WithColumn(row, channel, Indeterminate);
      assert WithColumn(taken, channel, Left(column, d, text)) == after;
      FromSending(s, c, script, t, channel, text, taken, sent, over);
      Claims(s, c, script, t, channel, text, row, sent);
      GoesOn(s, c, script, Delivering(t, channel, text, Claiming), row, sent, Delivering(t, channel, text, Sending),
             taken, sent, over);
    } else {
      assert more == sent;
      ClaimsNothing(s, c, script, t, channel, text, row, sent);
      Finishes(s, c, script, t, channel, text, Claiming, row, sent, after, sent, over);
    }
  }

  // The message to the customer

  /** What a settled booking has to say; a confirmation without a start cannot be put into words. */
  function Notice(b: Booking): CustomerNotice {
    if b.status == Cancelled then CancelledNotice
    else if b.confirmedStart.Some? then ConfirmedAt(b.confirmedStart.value)
    else Unprintable
  }

  predicate Routed(b: Booking, script: Script) {
    script.lookup == Some(true) && (b.status == Confirmed || b.status == Cancelled)
  }

  /** The customer's column once the feedback is over: untouched if the lookup fails, a delivery if there is a route and
  something to say, and otherwise unavailable, if that was saved. */
  function CustomerLeft(column: Delivery, b: Booking, script: Script): Delivery {
    if script.lookup == None then column
    else if Routed(b, script) then Left(column, script.customer, CustomerText(Notice(b)))
    else if column == NotSent && script.mark != Breaks then Unavailable
    else column
  }

  function CustomerSent(column: Delivery, t: Id, b: Booking, script: Script): seq<Effect> {
    if Routed(b, script) then Sent(column, script.customer, t, Customer, CustomerText(Notice(b))) else []
  }

  lemma Marks(s: System, c: Id, script: Script, t: Id, row: Task, sent: seq<Effect>)
    ensures Play(Mid(s, c, MarkingUnavailable(t), row, sent), c, script)
         == End(s, c, t,
                if row.customer == NotSent && script.mark != Breaks then row.(customer := Unavailable) else row, sent)
  {
    var after := if row.customer == NotSent && script.mark != Breaks then row.(customer := Unavailable) else row;
    PutTwice(s.db.tasks, t, row, after);
    CallTwice(s.calls, c, MarkingUnavailable(t), MarkingUnavailable(t));
    IsOver(s, c, script, MarkingUnavailable(t), row, sent, End(s, c, t, after, sent));
  }

  lemma LooksNowhere(s: System, c: Id, script: Script, t: Id, b: Booking, row: Task, sent: seq<Effect>)
    requires row.booking in s.db.bookings && s.db.bookings[row.booking] == b && !Routed(b, script)
    ensures Play(Mid(s, c, LookingUp(t), row, sent), c, script)
         == End(s, c, t, row.(customer := CustomerLeft(row.customer, b, script)), sent)
  {
    var end := End(s, c, t, row.(customer := CustomerLeft(row.customer, b, script)), sent);
    if script.lookup == None {
      CallTwice(s.calls, c, LookingUp(t), LookingUp(t));
      IsOver(s, c, script, LookingUp(t), row, sent, end);
    } else {
      CallTwice(s.calls, c, LookingUp(t), MarkingUnavailable(t));
      Marks(s, c, script, t, row, sent);
      GoesOn(s, c, script, LookingUp(t), row, sent, MarkingUnavailable(t), row, sent, end);
    }
  }

  lemma FindsRoute(s: System, c: Id, script: Script, t: Id, b: Booking, row: Task, sent: seq<Effect>)
    requires row.booking in s.db.bookings && s.db.bookings[row.booking] == b && Routed(b, script)
    ensures Apply(Mid(s, c, LookingUp(t), row, sent), Advance(c, ReplyTo(script, LookingUp(t))))
         == Mid(s, c, Delivering(t, Customer, CustomerText(Notice(b)), Claiming), row, sent)
  {
    CallTwice(s.calls, c, LookingUp(t), Delivering(t, Customer, CustomerText(Notice(b)), Claiming));
  }

  lemma FromLookingUp(s: System, c: Id, script: Script, t: Id, b: Booking, row: Task, sent: seq<Effect>)
    requires row.booking in s.db.bookings && s.db.bookings[row.booking] == b
    ensures Play(Mid(s, c, LookingUp(t), row, sent), c, script)
         == End(s, c, t, row.(customer := CustomerLeft(row.customer, b, script)),
                sent + CustomerSent(row.customer, t, b, script))
  {
    var end := End(s, c, t, row.(customer := CustomerLeft(row.customer, b, script)),
                   sent + CustomerSent(row.customer, t, b, script));
    if Routed(b, script) {
      FindsRoute(s, c, script, t, b, row, sent);
      DeliveredAlone(s, c, script, t, Customer, CustomerText(Notice(b)), row, sent, end);
      GoesOn(s, c, script, LookingUp(t), row, sent, Delivering(t, Customer, CustomerText(Notice(b)), Claiming), row,
             sent, end);
    } else {
      assert sent + [] == sent;
      LooksNowhere(s, c, script, t, b, row, sent);
    }
  }

  /** The second half of a callback, alone: the feedback and, unless the callback lost, the message to the customer
  are each sent at most once, only after their column was taken; what the columns say in the end is read off the
  answers, and everything else stays. */
  lemma AnsweredAlone(s: System, c: Id, script: Script, t: Id, outcome: StaffOutcome, version: nat)
    requires t in s.db.tasks && s.db.tasks[t].booking in s.db.bookings
    requires c in s.calls && s.calls[c] == Delivering(t, Feedback, FeedbackText(outcome, version), Claiming)
    ensures var row, b := s.db.tasks[t], s.db.bookings[s.db.tasks[t].booking];
            var text := FeedbackText(outcome, version);
            var lost := outcome == Conflict;
            Play(s, c, script) == System(
              s.db.(tasks := s.db.tasks[t := row.(
                feedback := Left(row.feedback, script.feedback, text),
                customer := if lost then row.customer else CustomerLeft(row.customer, b, script))]),
              Without(s.calls, c),
              s.effects + Sent(row.feedback, script.feedback, t, Feedback, text)
                + (if lost then [] else CustomerSent(row.customer, t, b, script)),
              s.moves)
  {
    var row, b := s.db.tasks[t], s.db.bookings[s.db.tasks[t].booking];
    var text := FeedbackText(outcome, version);
    var fed := row.(feedback := Left(row.feedback, script.feedback, text));
    var sent := Sent(row.feedback, script.feedback, t, Feedback, text);
    assert s == Mid(s, c, Delivering(t, Feedback, text, Claiming), row, []);
    assert [] + sent == sent;
    if outcome == Conflict {
      DeliveredAlone(s, c, script, t, Feedback, text, row, [], End(s, c, t, fed, sent));
      assert s.effects + sent + [] == s.effects + sent;
    } else {
      var more := CustomerSent(row.customer, t, b, script);
      FromLookingUp(s, c, script, t, b, fed, sent);
      DeliveredAlone(s, c, script, t, Feedback, text, row, [],
                     End(s, c, t, fed.(customer := CustomerLeft(row.customer, b, script)), sent + more));
      assert s.effects + sent + more == s.effects + (sent + more);
    }
  }

  /** A card, alone: its column was written before the call, and names the answer if the recording committed. */
  lemma AnnouncedAlone(s: System, c: Id, script: Script, t: Id)
    requires t in s.db.tasks && s.db.tasks[t].delivery == Indeterminate
    requires c in s.calls && s.calls[c] == Delivering(t, Card, CardText, Sending)
    ensures var row, d := s.db.tasks[t], script.customer;
            Play(s, c, script) == System(
              s.db.(tasks := s.db.tasks[t := row.(
                delivery := if d.record != Breaks then Recorded(d.answer) else Indeterminate)]),
              Without(s.calls, c),
              s.effects + [Effect(t, Card, CardText, Recorded(d.answer))],
              s.moves)
  {
    var row, d := s.db.tasks[t], script.customer;
    var after := row.(delivery := if d.record != Breaks then Recorded(d.answer) else Indeterminate);
    var sent := [Effect(t, Card, CardText, Recorded(d.answer))];
    assert s == Mid(s, c, Delivering(t, Card, CardText, Sending), row, []);
    assert [] + sent == sent;
    FromSending(s, c, script, t, Card, CardText, row, [], End(s, c, t, after, sent));
  }
}
