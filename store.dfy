/** The relational store, reduced to its two tables: conversations keyed by
    `conversation_id` and messages keyed by `message_id`.  `Db` is the value of
    the store; the `Store` class is the shared client the server code writes
    through, one method per store call it makes.  Every call takes a `fail`
    flag: when it is set the call throws for a reason outside this model (the
    store is unreachable, a timeout) and changes nothing. */
module StoreAdapter {
  import opened Records

  datatype Db = Db(conversations: map<string, Conversation>, messages: map<string, Message>)

  /** Which store calls of one request throw for a reason outside this model. */
  datatype Faults = Faults(lookup: bool, upsert: bool, create: bool, update: bool)

  const NoFaults := Faults(false, false, false, false)

  /** What every write path keeps true of the store: rows are filed under their
      own keys, each message belongs to a stored conversation, and every
      message is inbound or outbound. */
  predicate Consistent(db: Db) {
    && (forall k :: k in db.conversations ==> db.conversations[k].conversationId == k)
    && (forall k :: k in db.messages ==> db.messages[k].messageId == k)
    && (forall k :: k in db.messages ==> db.messages[k].conversationId in db.conversations)
    && (forall k :: k in db.messages ==>
          db.messages[k].direction == Inbound || db.messages[k].direction == Outbound)
  }

  /** `conversation.upsert`: update only `last_message_at` of an existing row,
      otherwise create the row as given. */
  function Upserted(db: Db, data: Conversation): (r: Db)
    ensures r.messages == db.messages
    ensures r.conversations.Keys == db.conversations.Keys + {data.conversationId}
    ensures data.conversationId !in db.conversations ==> r.conversations[data.conversationId] == data
    ensures data.conversationId in db.conversations ==>
      r.conversations[data.conversationId] ==
        db.conversations[data.conversationId].(lastMessageAt := data.lastMessageAt)
    ensures forall k :: k in db.conversations && k != data.conversationId ==>
      r.conversations[k] == db.conversations[k]
  {
    var id := data.conversationId;
    if id in db.conversations then
      db.(conversations := db.conversations[id := db.conversations[id].(lastMessageAt := data.lastMessageAt)])
    else
      db.(conversations := db.conversations[id := data])
  }

  /** `message.create` succeeds when the id is new and the owning conversation
      exists (the foreign key). */
  predicate CanInsert(db: Db, m: Message) {
    m.messageId !in db.messages && m.conversationId in db.conversations
  }

  function Inserted(db: Db, m: Message): (r: Db)
    requires CanInsert(db, m)
    ensures r.conversations == db.conversations
    ensures r.messages.Keys == db.messages.Keys + {m.messageId}
    ensures |r.messages| == |db.messages| + 1
    ensures r.messages[m.messageId] == m
    ensures forall k :: k in db.messages ==> r.messages[k] == db.messages[k]
  {
    db.(messages := db.messages[m.messageId := m])
  }

  /** `message.update({ where: { message_id }, data: { status } })`; an absent
      status leaves the row as it is (the store ignores undefined fields). */
  function StatusSet(db: Db, id: string, status: Option<string>): (r: Db)
    requires id in db.messages
    ensures r.conversations == db.conversations
    ensures r.messages.Keys == db.messages.Keys
    ensures status.Some? ==> r.messages[id] == db.messages[id].(status := status.value)
    ensures status.None? ==> r == db
    ensures forall k :: k in db.messages && k != id ==> r.messages[k] == db.messages[k]
  {
    match status
    case None => db
    case Some(s) => db.(messages := db.messages[id := db.messages[id].(status := s)])
  }

  /** `conversation.update({ where: { conversation_id }, data: { last_message_at } })`. */
  function LastMessageAtSet(db: Db, id: string, t: int): (r: Db)
    requires id in db.conversations
    ensures r.messages == db.messages
    ensures r.conversations.Keys == db.conversations.Keys
    ensures r.conversations[id] == db.conversations[id].(lastMessageAt := t)
    ensures forall k :: k in db.conversations && k != id ==> r.conversations[k] == db.conversations[k]
  {
    db.(conversations := db.conversations[id := db.conversations[id].(lastMessageAt := t)])
  }

  /** The outcome of a lookup by key: the call threw, no row has the key, or the row. */
  datatype Lookup = Threw | Missing | Found(row: Conversation)

  class Store {
    var conversations: map<string, Conversation>
    var messages: map<string, Message>

    function State(): Db
      reads this
    {
      Db(conversations, messages)
    }

    constructor (db: Db)
      ensures State() == db
    {
      conversations := db.conversations;
      messages := db.messages;
    }

    /** `conversation.findUnique`. */
    method FindConversation(id: string, fail: bool) returns (r: Lookup)
      ensures fail ==> r == Threw
      ensures !fail ==> r == if id in conversations then Found(conversations[id]) else Missing
    {
      if fail {
        r := Threw;
      } else if id in conversations {
        r := Found(conversations[id]);
      } else {
        r := Missing;
      }
    }

    method Upsert(data: Conversation, fail: bool) returns (ok: bool)
      modifies this
      ensures ok == !fail
      ensures State() == if ok then Upserted(old(State()), data) else old(State())
    {
      ok := !fail;
      if ok {
        var id := data.conversationId;
        if id in conversations {
          conversations := conversations[id := conversations[id].(lastMessageAt := data.lastMessageAt)];
        } else {
          conversations := conversations[id := data];
        }
      }
    }

    /** `message.create`; throws on a duplicate `message_id` or a missing conversation. */
    method CreateMessage(m: Message, fail: bool) returns (ok: bool)
      modifies this
      ensures ok == (!fail && CanInsert(old(State()), m))
      ensures State() == if ok then Inserted(old(State()), m) else old(State())
    {
      ok := !fail && m.messageId !in messages && m.conversationId in conversations;
      if ok {
        messages := messages[m.messageId := m];
      }
    }

    /** `message.update` of the status; throws when no row has that `message_id`. */
    method UpdateStatus(id: string, status: Option<string>, fail: bool) returns (ok: bool)
      modifies this
      ensures ok == (!fail && id in old(messages))
      ensures State() == if ok then StatusSet(old(State()), id, status) else old(State())
    {
      ok := !fail && id in messages;
      if ok && status.Some? {
        messages := messages[id := messages[id].(status := status.value)];
      }
    }

    /** `conversation.update` of `last_message_at`; throws when no row has that `conversation_id`. */
    method UpdateLastMessageAt(id: string, t: int, fail: bool) returns (ok: bool)
      modifies this
      ensures ok == (!fail && id in old(conversations))
      ensures State() == if ok then LastMessageAtSet(old(State()), id, t) else old(State())
    {
      ok := !fail && id in conversations;
      if ok {
        conversations := conversations[id := conversations[id].(lastMessageAt := t)];
      }
    }

    /** Discards the writes of a transaction that did not commit. */
    method Rollback(snapshot: Db)
      modifies this
      ensures State() == snapshot
    {
      conversations := snapshot.conversations;
      messages := snapshot.messages;
    }
  }
}
