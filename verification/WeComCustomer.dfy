/** The rows behind the customer channel and the transactions that change them (src/channels/wecom/customer.ts), and how
the sender reads the platform's answer (src/channels/wecom/client.ts). */
module WeComCustomer {
  import opened Wrappers
  import opened StoreOps

  /** A verified customer text; its payload hash is treated as injective, so the message stands for it. */
  datatype Message = Message(corp: Id, openKf: Id, externalUser: Id, id: Id, body: Id)

  /** UNIQUE (corp_id, open_kfid, message_id) */
  type Key = (Id, Id, Id)

  function KeyOf(m: Message): Key { (m.corp, m.openKf, m.id) }

  datatype State = Processing | Routed | Completed | Failed | Indeterminate

  /** Where a message is routed; the channel fixes the tenant and store. */
  datatype Route = Route(channel: Id, customer: Id, conversation: Id)

  datatype Row = Row(payload: Message, state: State, route: Option<Route>)

  type Rows = map<Key, Row>

  /** The active channel of a corp and open_kfid, and whether its authority may invoke the agent. */
  datatype Channel = Channel(id: Id, authorized: bool)

  type Channels = map<(Id, Id), Channel>

  datatype CustomerBinding = CustomerBinding(customer: Id, conversation: Id)

  /** UNIQUE (channel_binding_id, external_userid) */
  type Bindings = map<(Id, Id), CustomerBinding>

  /** The conversations opened for customers, and for whom. */
  type Conversations = map<Id, (Id, Id)>

  datatype ClaimStatus = Claimed | Duplicate | Conflict

  function Claim(rows: Rows, m: Message): (Rows, ClaimStatus) {
    if KeyOf(m) !in rows then (rows[KeyOf(m) := Row(m, Processing, None)], Claimed)
    else (rows, if rows[KeyOf(m)].payload == m then Duplicate else Conflict)
  }

  datatype Directory = Directory(bindings: Bindings, conversations: Conversations)

  /** resolveRoute: a known customer keeps the conversation of the first contact; an unknown one gets new
  identifiers. */
  function ResolveRoute(d: Directory, channels: Channels, m: Message, newCustomer: Id, newConversation: Id)
    : (Directory, Option<Route>)
  {
    if (m.corp, m.openKf) !in channels || !channels[(m.corp, m.openKf)].authorized then (d, None)
    else
      var channel := channels[(m.corp, m.openKf)].id;
      var contact := (channel, m.externalUser);
      if contact in d.bindings
      then (d, Some(Route(channel, d.bindings[contact].customer, d.bindings[contact].conversation)))
      else (Directory(d.bindings[contact := CustomerBinding(newCustomer, newConversation)],
        d.conversations[newConversation := contact]),
            Some(Route(channel, newCustomer, newConversation)))
  }

  function AttachRoute(rows: Rows, k: Key, route: Route): (Rows, bool) {
    if k in rows && rows[k].state.Processing? && rows[k].route.None?
    then (rows[k := rows[k].(state := Routed, route := Some(route))], true) else (rows, false)
  }

  function Complete(rows: Rows, k: Key): (Rows, bool) {
    if k in rows && rows[k].state.Routed? then (rows[k := rows[k].(state := Completed)], true) else (rows, false)
  }

  function MarkFailed(rows: Rows, k: Key): (Rows, bool) {
    if k in rows && (rows[k].state.Processing? || rows[k].state.Routed?) then
      (rows[k := rows[k].(state := Failed)], true)
    else (rows, false)
  }

  function MarkIndeterminate(rows: Rows, k: Key): (Rows, bool) {
    if k in rows && rows[k].state.Routed? then (rows[k := rows[k].(state := Indeterminate)], true) else (rows, false)
  }

  /** What comes back over the wire for one send: a message the client refuses to send, no token, no usable answer, a
  refusal by the platform, or errcode 0 with the echoed, another, or a malformed message id. */
  datatype Wire = Refusable | NoToken | NoAnswer | Refused | Taken(msgid: MsgId)

  datatype MsgId = Echoed | Other | Malformed

  datatype SendOutcome = Accepted | Rejected | Unknown

  /** sendTextMessage and the catch around it: whatever is not WeComKfSendIndeterminateError counts as rejected, and the
  plain error of a malformed message id is one of these. */
  function OutcomeOf(w: Wire): SendOutcome {
    match w
    case Refusable => Rejected
    case NoToken => Rejected
    case NoAnswer => Unknown
    case Refused => Rejected
    case Taken(id) => if id.Echoed? then Accepted else if id.Other? then Unknown else Rejected
  }

  /** What the answer says about delivery. */
  predicate Consistent(w: Wire, delivered: bool) {
    (w.Taken? ==> delivered) && (w.Refusable? || w.NoToken? || w.Refused? ==> !delivered)
  }

  class RouterTable {
    var rows: Rows
    var directory: Directory
    var channels: Channels

    method ClaimMessage(message: Message) returns (status: ClaimStatus)
      modifies `rows
      ensures (rows, status) == Claim(old(rows), message)
      ensures var key := (message.corp, message.openKf, message.id);
              && (status == Claimed <==> key !in old(rows))
              && (status == Duplicate <==> key in old(rows) && old(rows)[key].payload == message)
              && rows == if key in old(rows) then old(rows) else old(rows)[key := Row(message, Processing, None)]
    {
      var key := (message.corp, message.openKf, message.id);
      if key !in rows {
        rows := rows[key := Row(message, Processing, None)];
        return Claimed;
      }
      status := if rows[key].payload == message then Duplicate else Conflict;
    }

    method Resolve(message: Message, newCustomer: Id, newConversation: Id) returns (route: Option<Route>)
      modifies `directory
      ensures (directory, route) == ResolveRoute(old(directory), channels, message, newCustomer, newConversation)
      ensures route.Some? <==> (message.corp, message.openKf) in channels
                               && channels[(message.corp, message.openKf)].authorized
      ensures route.None? ==> directory == old(directory)
      ensures route.Some? ==>
                var channel := channels[(message.corp, message.openKf)].id;
                var contact := (channel, message.externalUser);
                && route.value.channel == channel && contact in directory.bindings
                && directory.bindings[contact] == CustomerBinding(route.value.customer, route.value.conversation)
                && (contact in old(directory).bindings ==> directory == old(directory))
                && (contact !in old(directory).bindings ==>
                      && route.value == Route(channel, newCustomer, newConversation)
                      && directory.bindings == old(directory).bindings[contact := directory.bindings[contact]]
                      && directory.conversations == old(directory).conversations[newConversation := contact])
    {
      var address := (message.corp, message.openKf);
      if address !in channels || !channels[address].authorized {
        return None;
      }
      var channel := channels[address].id;
      var contact := (channel, message.externalUser);
      if contact in directory.bindings {
        var existing := directory.bindings[contact];
        return Some(Route(channel, existing.customer, existing.conversation));
      }
      var conversations := directory.conversations[newConversation := contact];
      var bindings := directory.bindings[contact := CustomerBinding(newCustomer, newConversation)];
      directory := Directory(bindings, conversations);
      route := Some(Route(channel, newCustomer, newConversation));
    }

    /** UPDATE ... SET state = to WHERE id = key AND state IN from */
    method SetState(key: Key, from: set<State>, to: State) returns (changed: bool)
      modifies `rows
      ensures changed == (key in old(rows) && old(rows)[key].state in from)
      ensures rows == if changed then old(rows)[key := old(rows)[key].(state := to)] else old(rows)
    {
      changed := key in rows && rows[key].state in from;
      if changed { rows := rows[key := rows[key].(state := to)]; }
    }

    method Attach(key: Key, route: Route) returns (changed: bool)
      modifies `rows
      ensures (rows, changed) == AttachRoute(old(rows), key, route)
      ensures changed <==> key in old(rows) && old(rows)[key].state == Processing && old(rows)[key].route == None
      ensures rows == if changed then old(rows)[key := Row(old(rows)[key].payload, Routed, Some(route))] else old(rows)
    {
      changed := key in rows && rows[key].state.Processing? && rows[key].route.None?;
      if changed { rows := rows[key := rows[key].(state := Routed, route := Some(route))]; }
    }

    method CompleteMessage(key: Key) returns (changed: bool)
      modifies `rows
      ensures (rows, changed) == Complete(old(rows), key)
      ensures changed <==> key in old(rows) && old(rows)[key].state == Routed
      ensures changed ==> rows == old(rows)[key := old(rows)[key].(state := Completed)]
    {
      changed := SetState(key, {Routed}, Completed);
    }

    method MarkMessageFailed(key: Key) returns (changed: bool)
      modifies `rows
      ensures (rows, changed) == MarkFailed(old(rows), key)
      ensures changed <==> key in old(rows) && (old(rows)[key].state == Processing || old(rows)[key].state == Routed)
      ensures changed ==> rows == old(rows)[key := old(rows)[key].(state := Failed)]
    {
      changed := SetState(key, {Processing, Routed}, Failed);
    }

    method MarkMessageIndeterminate(key: Key) returns (changed: bool)
      modifies `rows
      ensures (rows, changed) == MarkIndeterminate(old(rows), key)
      ensures changed <==> key in old(rows) && old(rows)[key].state == Routed
      ensures changed ==> rows == old(rows)[key := old(rows)[key].(state := Indeterminate)]
    {
      changed := SetState(key, {Routed}, Indeterminate);
    }
  }
}
