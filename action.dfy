/** The server action `sendMessage` (src/app/action.ts): look the conversation
    up, insert an outbound message under a fresh id, then bump the
    conversation's `last_message_at`.  The two writes are separate store calls,
    not one transaction, and every throw becomes `{ success: false, error }`. */
module Action {
  import opened Records
  import opened StoreAdapter

  const TextKind: string := "text"
  const SentStatus: string := "sent"
  const NotFoundPrefix: string := "No existing conversation found for WA ID: "

  /** `error`: the thrown message for a missing conversation; a store call that
      throws has a message this model does not know. */
  datatype SendError = ConversationNotFound(message: string) | StoreFailure

  /** `{ success: true, waMsgId }` or `{ success: false, error }`. */
  datatype SendResult = Sent(waMsgId: string) | Failed(error: SendError)

  datatype SendReply = SendReply(result: SendResult, db: Db)

  /** The row `sendMessage` creates: `timestamp` is the instant of the send. */
  function OutboundMessage(waId: string, text: string, id: string, now: int): (m: Message)
    ensures m.messageId == id && m.conversationId == waId
    ensures m.direction == "outbound" && m.kind == "text" && m.status == "sent"
    ensures m.textBody == Some(text) && m.timestamp == now && m.senderWaId == "918329446654"
  {
    Message(id, waId, Outbound, TextKind, SentStatus, Some(text), now, BusinessNumber)
  }

  /** `sendMessage(contact, messageText)` with `freshId` as the generated uuid
      and `now` as the clock reading. */
  function Send(db: Db, contact: Contact, text: string, freshId: string, now: int, f: Faults): (r: SendReply)
    // an unknown conversation is rejected by name and nothing is written
    ensures (r.result.Failed? && r.result.error.ConversationNotFound?) <==>
      !f.lookup && contact.waId !in db.conversations
    ensures !f.lookup && contact.waId !in db.conversations ==>
      r == SendReply(Failed(ConversationNotFound(NotFoundPrefix + contact.waId)), db)
    ensures f.lookup ==> r == SendReply(Failed(StoreFailure), db)
    // a create that throws, or a taken id, writes nothing
    ensures !f.lookup && contact.waId in db.conversations && (f.create || freshId in db.messages) ==>
      r == SendReply(Failed(StoreFailure), db)
    // success needs every store call to go through
    ensures r.result.Sent? <==>
      !f.lookup && contact.waId in db.conversations && freshId !in db.messages && !f.create && !f.update
    ensures r.result.Sent? ==> r.result.waMsgId == freshId
    // whatever the outcome, at most the one new message and the one conversation change
    ensures r.db.conversations.Keys == db.conversations.Keys
    ensures forall k :: k in db.conversations && k != contact.waId ==> r.db.conversations[k] == db.conversations[k]
    ensures forall k :: k in db.messages ==> k in r.db.messages && r.db.messages[k] == db.messages[k]
    ensures r.db.messages.Keys <= db.messages.Keys + {freshId}
    ensures r.db != db ==>
      && contact.waId in db.conversations
      && freshId !in db.messages
      && freshId in r.db.messages
      && var m := r.db.messages[freshId];
      && m.messageId == freshId && m.conversationId == contact.waId
      && m.kind == "text" && m.direction == Outbound && m.status == "sent"
      && m.textBody == Some(text) && m.senderWaId == BusinessNumber && m.timestamp == now
    ensures r.result.Sent? ==>
      freshId in r.db.messages &&
      r.db.conversations[contact.waId] == db.conversations[contact.waId].(lastMessageAt := now) &&
      r.db.conversations[contact.waId].lastMessageAt == r.db.messages[freshId].timestamp
    // the two writes are not atomic: a failed bump keeps the inserted message
    ensures !f.lookup && contact.waId in db.conversations && freshId !in db.messages && !f.create && f.update ==>
      r.result == Failed(StoreFailure) && freshId in r.db.messages && r.db.conversations == db.conversations
  {
    if f.lookup then SendReply(Failed(StoreFailure), db)
    else if contact.waId !in db.conversations then
      SendReply(Failed(ConversationNotFound(NotFoundPrefix + contact.waId)), db)
    else
      var m := OutboundMessage(contact.waId, text, freshId, now);
      if f.create || !CanInsert(db, m) then SendReply(Failed(StoreFailure), db)
      else
        var db' := Inserted(db, m);
        if f.update then SendReply(Failed(StoreFailure), db')
        else SendReply(Sent(freshId), LastMessageAtSet(db', contact.waId, now))
  }

  /** `sendMessage`, step by step against the store. */
  method SendMessage(store: Store, contact: Contact, text: string, freshId: string, now: int, f: Faults)
    returns (r: SendResult)
    modifies store
    ensures SendReply(r, store.State()) == Send(old(store.State()), contact, text, freshId, now, f)
  {
    var existing := store.FindConversation(contact.waId, f.lookup);
    if existing.Threw? {
      return Failed(StoreFailure);
    }
    if existing.Missing? {
      return Failed(ConversationNotFound(NotFoundPrefix + contact.waId));
    }
    var created := store.CreateMessage(OutboundMessage(contact.waId, text, freshId, now), f.create);
    if !created {
      return Failed(StoreFailure);
    }
    var updated := store.UpdateLastMessageAt(contact.waId, now, f.update);
    if !updated {
      return Failed(StoreFailure);
    }
    r := Sent(freshId);
  }

  // ----- properties of the send action -----

  lemma SendPreservesConsistent(db: Db, contact: Contact, text: string, freshId: string, now: int, f: Faults)
    requires Consistent(db)
    ensures Consistent(Send(db, contact, text, freshId, now, f).db)
  {
    var r := Send(db, contact, text, freshId, now, f);
    if r.db != db {
      forall k | k in r.db.conversations ensures r.db.conversations[k].conversationId == k {
        if k != contact.waId {
          assert r.db.conversations[k] == db.conversations[k];
        }
      }
      forall k | k in r.db.messages
        ensures r.db.messages[k].messageId == k
        ensures r.db.messages[k].conversationId in r.db.conversations
        ensures r.db.messages[k].direction == Inbound || r.db.messages[k].direction == Outbound
      {
        if k != freshId {
          assert r.db.messages[k] == db.messages[k];
        }
      }
    }
  }

  /** A send to a counterparty with no conversation fails, names the id, and
      creates nothing, even with a store that never fails. */
  lemma SendToUnknownScenario(db: Db, now: int)
    requires "999" !in db.conversations
    ensures Send(db, Contact("999", "+999"), "hi", "uuid-1", now, NoFaults) ==
      SendReply(Failed(ConversationNotFound("No existing conversation found for WA ID: 999")), db)
  {
  }

  /** A send into an existing conversation stores one outbound "sent" message
      and moves the conversation's `last_message_at` to the send time. */
  lemma SendScenario(db: Db, now: int)
    requires "111" in db.conversations && "uuid-1" !in db.messages
    ensures var r := Send(db, Contact("111", "+111"), "hello", "uuid-1", now, NoFaults);
      && r.result == Sent("uuid-1")
      && r.db.messages == db.messages["uuid-1" := Message("uuid-1", "111", "outbound", "text", "sent", Some("hello"), now, "918329446654")]
      && r.db.conversations == db.conversations["111" := db.conversations["111"].(lastMessageAt := now)]
  {
  }

  /** If the second write fails the caller sees a failure, yet the message
      created by the first write stays in the store. */
  lemma SendLeavesOrphanOnUpdateFailure(db: Db, contact: Contact, text: string, freshId: string, now: int)
    requires contact.waId in db.conversations && freshId !in db.messages
    ensures var r := Send(db, contact, text, freshId, now, Faults(false, false, false, true));
      && r.result == Failed(StoreFailure)
      && r.db.messages == db.messages[freshId := OutboundMessage(contact.waId, text, freshId, now)]
      && r.db.conversations[contact.waId].lastMessageAt == db.conversations[contact.waId].lastMessageAt
  {
  }
}
