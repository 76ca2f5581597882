/** The rows behind the internal message pipeline and the transactions that change them
(src/channels/wecom/postgres.ts). Each transaction is specified by a function on the rows; the class performs it in
place and lands exactly where the function says. */
module WeComInbound {
  import opened Wrappers
  import opened StoreOps

  /** A parsed message; its payload hash is treated as injective, so the message stands for it. */
  datatype Message = Message(corp: Id, application: Id, subject: Id, id: Id, body: Id)

  /** UNIQUE (corp_id, application_id, message_id) */
  type Key = (Id, Id, Id)

  function KeyOf(m: Message): Key { (m.corp, m.application, m.id) }

  datatype State = Processing | Completed | Failed | Indeterminate

  /** delivery_state; Uncertain is the stored value 'indeterminate'. */
  datatype Delivery = NotSent | Sent | Uncertain

  datatype Attachment = Attachment(binding: Id, tenant: Id, store: Id, conversation: Id)

  datatype Row = Row(payload: Message, state: State, delivery: Delivery, attached: Option<Attachment>)

  type Rows = map<Key, Row>

  /** A conversation's owner; foreign keys keep it from changing once a message refers to it. */
  datatype Owner = Owner(tenant: Id, store: Id, customer: Id)

  /** A channel binding joined with its membership; only says whether the user has no other membership. */
  datatype Binding = Binding(
    corp: Id, application: Id, subject: Id, membership: Id, user: Id, role: Role, tenant: Id, store: Id, active: bool,
    only: bool)

  datatype Identity = Identity(binding: Id, membership: Id, user: Id, role: Role, tenant: Id, store: Id)

  function IdentityOf(id: Id, b: Binding): Identity { Identity(id, b.membership, b.user, b.role, b.tenant, b.store) }

  predicate BoundTo(b: Binding, m: Message) {
    b.corp == m.corp && b.application == m.application && b.subject == m.subject && b.active && b.only
  }

  /** resolveIdentity: the identity of the sender's one active binding, if there is exactly one. */
  ghost predicate Resolves(bindings: map<Id, Binding>, m: Message, identity: Option<Identity>) {
    if identity.Some? then
      && identity.value.binding in bindings && BoundTo(bindings[identity.value.binding], m)
      && identity.value == IdentityOf(identity.value.binding, bindings[identity.value.binding])
      && (forall id :: id in bindings && BoundTo(bindings[id], m) ==> id == identity.value.binding)
    else
      forall id :: id in bindings && BoundTo(bindings[id], m)
        ==> exists other :: other in bindings && other != id && BoundTo(bindings[other], m)
  }

  datatype ClaimStatus = Claimed | Duplicate | Conflict

  function Claim(rows: Rows, m: Message): (Rows, ClaimStatus) {
    if KeyOf(m) !in rows then (rows[KeyOf(m) := Row(m, Processing, NotSent, None)], Claimed)
    else (rows, if rows[KeyOf(m)].payload == m then Duplicate else Conflict)
  }

  predicate Active(r: Row) { r.state.Processing? || r.state.Indeterminate? }

  predicate AttachedTo(r: Row, tenant: Id, store: Id, conversation: Id) {
    r.attached.Some? && r.attached.value.tenant == tenant && r.attached.value.store == store
      && r.attached.value.conversation == conversation
  }

  predicate Blocks(r: Row, at: Attachment) {
    AttachedTo(r, at.tenant, at.store, at.conversation) && (Active(r) || r.attached.value.binding != at.binding)
  }

  predicate Busy(rows: Rows, at: Attachment) { exists k :: k in rows && Blocks(rows[k], at) }

  function Place(identity: Identity, conversation: Id): Attachment {
    Attachment(identity.binding, identity.tenant, identity.store, conversation)
  }

  predicate StillBound(bindings: map<Id, Binding>, key: Key, i: Identity) {
    && i.binding in bindings
    && var b := bindings[i.binding];
       b.active && b.only && b.corp == key.0 && b.application == key.1 && i == IdentityOf(i.binding, b)
  }

  function Attach(rows: Rows, conversations: map<Id, Owner>, bindings: map<Id, Binding>, key: Key, identity: Identity,
      conversation: Id, customer: Id)
    : (Rows, bool)
  {
    if conversation !in conversations
      || conversations[conversation] != Owner(identity.tenant, identity.store, customer) then (rows, false)
    else if Busy(rows, Place(identity, conversation)) then (rows, false)
    else if key in rows && rows[key].state.Processing? && rows[key].attached.None?
      && StillBound(bindings, key, identity)
    then (rows[key := rows[key].(attached := Some(Place(identity, conversation)))], true)
    else (rows, false)
  }

  /** The row is of another conversation, or over and of the same binding. */
  predicate LeavesFree(r: Row, identity: Identity, conversation: Id) {
    r.attached.Some? ==>
      var at := r.attached.value;
      at.conversation == conversation && at.tenant == identity.tenant && at.store == identity.store ==>
        r.state != Processing && r.state != Indeterminate && at.binding == identity.binding
  }

  /** No message of the conversation is under way or indeterminate, and none came through another binding. */
  predicate Free(rows: Rows, identity: Identity, conversation: Id) {
    forall k :: k in rows ==> LeavesFree(rows[k], identity, conversation)
  }

  /** When a message may be attached: the conversation is the customer's in the identity's own store, and free; the
  message is under way and not attached; and the identity's binding is still there, active and unchanged. */
  predicate MayAttach(rows: Rows, conversations: map<Id, Owner>, bindings: map<Id, Binding>, key: Key,
      identity: Identity, conversation: Id, customer: Id)
  {
    && conversation in conversations && conversations[conversation].tenant == identity.tenant
    && conversations[conversation].store == identity.store && conversations[conversation].customer == customer
    && Free(rows, identity, conversation)
    && key in rows && rows[key].state == Processing && rows[key].attached.None?
    && identity.binding in bindings
    && var b := bindings[identity.binding];
       && b.active && b.only && b.corp == key.0 && b.application == key.1
       && b.membership == identity.membership && b.user == identity.user && b.role == identity.role
       && b.tenant == identity.tenant && b.store == identity.store
  }

  lemma AttachIsExact(rows: Rows, conversations: map<Id, Owner>, bindings: map<Id, Binding>, key: Key,
      identity: Identity, conversation: Id, customer: Id)
    ensures Attach(rows, conversations, bindings, key, identity, conversation, customer).1 <==>
              MayAttach(rows, conversations, bindings, key, identity, conversation, customer)
  {
    forall k | k in rows
      ensures Blocks(rows[k], Place(identity, conversation)) <==> !LeavesFree(rows[k], identity, conversation)
    {
    }
  }

  /** The rows a resolved identity comes from: the sender's only active binding, to a user without another
  membership. */
  lemma ResolvesExactly(bindings: map<Id, Binding>, m: Message, identity: Identity)
    ensures Resolves(bindings, m, Some(identity)) <==>
              && identity.binding in bindings
              && var b := bindings[identity.binding];
                 && b.corp == m.corp && b.application == m.application && b.subject == m.subject && b.active && b.only
                 && b.membership == identity.membership && b.user == identity.user && b.role == identity.role
                 && b.tenant == identity.tenant && b.store == identity.store
                 && forall id :: id in bindings && id != identity.binding ==>
                      && var o := bindings[id];
                         !(o.corp == m.corp && o.application == m.application && o.subject == m.subject && o.active
                           && o.only)
  {
  }

  function MarkUncertain(rows: Rows, key: Key): (Rows, bool) {
    if key in rows && rows[key].state.Processing? && rows[key].delivery.NotSent? && rows[key].attached.Some?
    then (rows[key := rows[key].(delivery := Uncertain)], true)
    else (rows, false)
  }

  function Finish(rows: Rows, key: Key, state: State, delivery: Delivery): (Rows, bool) {
    if key in rows && rows[key].state.Processing?
    then (rows[key := rows[key].(state := state, delivery := delivery)], true)
    else (rows, false)
  }

  class InboundTable {
    var rows: Rows
    var conversations: map<Id, Owner>
    var bindings: map<Id, Binding>

    method ClaimMessage(message: Message) returns (status: ClaimStatus)
      modifies `rows
      ensures (rows, status) == Claim(old(rows), message)
      ensures var key := (message.corp, message.application, message.id);
              && (status == Claimed <==> key !in old(rows))
              && (status == Duplicate <==> key in old(rows) && old(rows)[key].payload == message)
              && rows == if key in old(rows) then old(rows)
                         else old(rows)[key := Row(message, Processing, NotSent, None)]
    {
      var key := (message.corp, message.application, message.id);
      if key !in rows {
        rows := rows[key := Row(message, Processing, NotSent, None)];
        return Claimed;
      }
      status := if rows[key].payload == message then Duplicate else Conflict;
    }

    method AttachConversation(key: Key, identity: Identity, conversation: Id, customer: Id) returns (attached: bool)
      modifies `rows
      ensures (rows, attached) == Attach(old(rows), conversations, bindings, key, identity, conversation, customer)
      ensures attached <==> MayAttach(old(rows), conversations, bindings, key, identity, conversation, customer)
      ensures rows == if !attached then old(rows)
                      else old(rows)[key := old(rows)[key].(attached := Some(
                        Attachment(identity.binding, identity.tenant, identity.store, conversation)))]
    {
      AttachIsExact(rows, conversations, bindings, key, identity, conversation, customer);
      if conversation !in conversations {
        return false;
      }
      var owner := conversations[conversation];
      if owner.tenant != identity.tenant || owner.store != identity.store || owner.customer != customer {
        return false;
      }
      if exists k | k in rows :: Blocks(rows[k], Place(identity, conversation)) {
        return false;
      }
      if key !in rows || !rows[key].state.Processing? || rows[key].attached.Some?
        || !StillBound(bindings, key, identity) {
        return false;
      }
      rows := rows[key := rows[key].(attached := Some(Place(identity, conversation)))];
      attached := true;
    }

    method MarkDeliveryUncertain(key: Key) returns (changed: bool)
      modifies `rows
      ensures (rows, changed) == MarkUncertain(old(rows), key)
      ensures changed <==> && key in old(rows) && old(rows)[key].state == Processing
                           && old(rows)[key].delivery == NotSent && old(rows)[key].attached.Some?
      ensures rows == if changed then old(rows)[key := old(rows)[key].(delivery := Uncertain)] else old(rows)
    {
      changed := key in rows && rows[key].state.Processing? && rows[key].delivery.NotSent? && rows[key].attached.Some?;
      if changed { rows := rows[key := rows[key].(delivery := Uncertain)]; }
    }

    method FinishMessage(key: Key, state: State, delivery: Delivery) returns (changed: bool)
      modifies `rows
      ensures (rows, changed) == Finish(old(rows), key, state, delivery)
      ensures changed <==> key in old(rows) && old(rows)[key].state == Processing
      ensures rows == if changed then old(rows)[key := old(rows)[key].(state := state, delivery := delivery)]
                      else old(rows)
    {
      changed := key in rows && rows[key].state.Processing?;
      if changed { rows := rows[key := rows[key].(state := state, delivery := delivery)]; }
    }
  }
}
