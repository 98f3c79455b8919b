/** The webhook endpoint (`POST` in src/app/api/webhook/route.ts): checks the
    envelope, classifies the first change of the first entry, and either
    overwrites a message's status or, in one transaction, upserts the
    conversation and inserts the message. */
module Webhook {
  import opened Records
  import opened StoreAdapter

  const PayloadType: string := "whatsapp_webhook"
  const MessagesField: string := "messages"
  /** The status every message the webhook inserts gets, whatever its direction. */
  const ReceivedStatus: string := "received"
  const MsPerSecond: int := 1000

  /** The provider payload, already decoded from JSON.  A field the code reads
      through optional chaining, or tests for presence, is an `Option`; an array
      whose first element the code dereferences is a `seq` (absent and empty
      behave alike: both throw). */
  datatype Metadata = Metadata(displayPhoneNumber: string)

  /** `messages[0]`: `timestamp` is in seconds; `textBody` is `text?.body`. */
  datatype WaMessage = WaMessage(id: string, from: string, kind: string, textBody: Option<string>, timestamp: int)

  /** `statuses[0]`: either `id` or `meta_msg_id` names the message. */
  datatype StatusEntry = StatusEntry(id: Option<string>, metaMsgId: Option<string>, status: Option<string>)

  datatype ChangeValue = ChangeValue(
    metadata: Option<Metadata>,
    contacts: seq<Contact>,
    messages: seq<WaMessage>,
    statuses: Option<seq<StatusEntry>>)

  datatype Change = Change(field: Option<string>, value: Option<ChangeValue>)

  /** `firstChange` is `metaData.entry[0].changes[0]`, `None` when any link of
      that chain is missing. */
  datatype Payload = Payload(payloadType: Option<string>, firstChange: Option<Change>)

  datatype HttpStatus = Ok200 | BadRequest400 | ServerError500

  /** The response status and the store after the request. */
  datatype Reply = Reply(status: HttpStatus, db: Db)

  /** What `POST` makes of a payload.  `Unreadable` is a change whose field is
      `"messages"` but which has no `value`: reading `value.statuses` throws. */
  datatype Event =
    | InvalidEnvelope
    | StatusEvent(value: ChangeValue)
    | MessageEvent(value: ChangeValue)
    | NoOp
    | Unreadable

  predicate FieldIsMessages(p: Payload) {
    p.firstChange.Some? && p.firstChange.value.field == Some(MessagesField)
  }

  function Classify(p: Payload): (e: Event)
    ensures e.InvalidEnvelope? <==> p.payloadType != Some(PayloadType)
    ensures e.NoOp? <==> p.payloadType == Some(PayloadType) && !FieldIsMessages(p)
    ensures e.StatusEvent? || e.MessageEvent? ==>
      FieldIsMessages(p) && p.firstChange.value.value == Some(e.value)
    ensures e.StatusEvent? ==> e.value.statuses.Some?
    ensures e.MessageEvent? ==> e.value.statuses.None?
    // a `"messages"` change with no value cannot be read
    ensures e.Unreadable? <==>
      p.payloadType == Some(PayloadType) && FieldIsMessages(p) && p.firstChange.value.value.None?
    // every readable `"messages"` change is processed, by the presence of `statuses`
    ensures p.payloadType == Some(PayloadType) && FieldIsMessages(p) && p.firstChange.value.value.Some? ==>
      var v := p.firstChange.value.value.value;
      (v.statuses.Some? ==> e == StatusEvent(v)) && (v.statuses.None? ==> e == MessageEvent(v))
  {
    if p.payloadType != Some(PayloadType) then InvalidEnvelope
    else if !FieldIsMessages(p) then NoOp
    else match p.firstChange.value.value
      case None => Unreadable
      case Some(v) => if v.statuses.Some? then StatusEvent(v) else MessageEvent(v)
  }

  /** Every field `processMessagePayload` dereferences without optional
      chaining is there. */
  predicate Decodable(v: ChangeValue) {
    |v.contacts| > 0 && |v.messages| > 0 && v.metadata.Some?
  }

  /** `conversationData`: the row to create when the conversation is new. */
  function ConversationData(v: ChangeValue, now: int): (c: Conversation)
    requires Decodable(v)
    // keyed and named by the first contact, last active at the message's time in milliseconds
    ensures c.conversationId == v.contacts[0].waId && c.waId == v.contacts[0].waId
    ensures c.name == v.contacts[0].name
    ensures c.lastMessageAt == v.messages[0].timestamp * 1000 && c.createdAt == now
  {
    var contact := v.contacts[0];
    Conversation(contact.waId, contact.waId, contact.name, v.messages[0].timestamp * MsPerSecond, now)
  }

  /** `messageData`: the row to insert. */
  function MessageData(v: ChangeValue): (m: Message)
    requires Decodable(v)
    ensures m.messageId == v.messages[0].id && m.conversationId == v.contacts[0].waId
    // a message sent from the business's own number is outbound, any other inbound
    ensures m.direction == Outbound <==> v.metadata.value.displayPhoneNumber == v.messages[0].from
    ensures m.direction == Inbound <==> v.metadata.value.displayPhoneNumber != v.messages[0].from
    ensures m.status == "received" && m.kind == v.messages[0].kind && m.textBody == v.messages[0].textBody
    ensures m.timestamp == v.messages[0].timestamp * 1000 && m.senderWaId == v.messages[0].from
  {
    var m := v.messages[0];
    var direction := if v.metadata.value.displayPhoneNumber == m.from then Outbound else Inbound;
    Message(m.id, v.contacts[0].waId, direction, m.kind, ReceivedStatus, m.textBody, m.timestamp * MsPerSecond, m.from)
  }

  /** A message event: upsert then create, committed together or not at all. */
  function IngestMessage(db: Db, v: ChangeValue, now: int, f: Faults): (r: Reply)
    ensures r.status != BadRequest400
    ensures r.status == Ok200 <==>
      Decodable(v) && !f.upsert && !f.create && v.messages[0].id !in db.messages
    ensures r.status != Ok200 ==> r.db == db
    ensures r.status == Ok200 ==>
      var key, m := v.contacts[0].waId, v.messages[0];
      && r.db.conversations.Keys == db.conversations.Keys + {key}
      && r.db.conversations[key].lastMessageAt == m.timestamp * 1000
      && (key !in db.conversations ==>
            r.db.conversations[key] == Conversation(key, key, v.contacts[0].name, m.timestamp * 1000, now))
      && (key in db.conversations ==>
            r.db.conversations[key] == db.conversations[key].(lastMessageAt := m.timestamp * 1000))
      && (forall k :: k in db.conversations && k != key ==> r.db.conversations[k] == db.conversations[k])
      && r.db.messages.Keys == db.messages.Keys + {m.id}
      && (forall k :: k in db.messages ==> r.db.messages[k] == db.messages[k])
      && var stored := r.db.messages[m.id];
      && stored.messageId == m.id
      && stored.conversationId == key
      && (stored.direction == Outbound <==> v.metadata.value.displayPhoneNumber == m.from)
      && (stored.direction == Inbound <==> v.metadata.value.displayPhoneNumber != m.from)
      && stored.status == "received"
      && stored.kind == m.kind
      && stored.textBody == m.textBody
      && stored.timestamp == m.timestamp * 1000
      && stored.senderWaId == m.from
  {
    if !Decodable(v) || f.upsert then Reply(ServerError500, db)
    else
      var db' := Upserted(db, ConversationData(v, now));
      var m := MessageData(v);
      if f.create || !CanInsert(db', m) then Reply(ServerError500, db)
      else Reply(Ok200, Inserted(db', m))
  }

  /** `statusData.id || statusData.meta_msg_id`: an empty `id` counts as absent. */
  function StatusKey(s: StatusEntry): (k: Option<string>)
    ensures s.id.Some? && s.id.value != "" ==> k == s.id
    ensures (s.id.None? || s.id.value == "") ==> k == s.metaMsgId
  {
    if s.id.Some? && s.id.value != "" then s.id else s.metaMsgId
  }

  /** A status event: overwrite the status of the message the key names. */
  function IngestStatus(db: Db, v: ChangeValue, f: Faults): (r: Reply)
    requires v.statuses.Some?
    ensures r.status != BadRequest400
    ensures r.status == Ok200 <==>
      |v.statuses.value| > 0 && StatusKey(v.statuses.value[0]).Some? &&
      StatusKey(v.statuses.value[0]).value in db.messages && !f.update
    ensures r.status != Ok200 ==> r.db == db
    ensures r.status == Ok200 ==>
      var s := v.statuses.value[0];
      var key := StatusKey(s).value;
      && r.db.conversations == db.conversations
      && r.db.messages.Keys == db.messages.Keys
      && (forall k :: k in db.messages && k != key ==> r.db.messages[k] == db.messages[k])
      && r.db.messages[key] == (if s.status.Some? then db.messages[key].(status := s.status.value) else db.messages[key])
  {
    var statuses := v.statuses.value;
    if |statuses| == 0 then Reply(ServerError500, db)
    else match StatusKey(statuses[0])
      case None => Reply(ServerError500, db)
      case Some(key) =>
        if f.update || key !in db.messages then Reply(ServerError500, db)
        else Reply(Ok200, StatusSet(db, key, statuses[0].status))
  }

  /** The whole request: a response status and the store afterwards. */
  function Handle(db: Db, p: Payload, now: int, f: Faults): (r: Reply)
    ensures r.status == BadRequest400 <==> p.payloadType != Some(PayloadType)
    ensures r.status != Ok200 ==> r.db == db
    ensures p.payloadType == Some(PayloadType) && !FieldIsMessages(p) ==> r == Reply(Ok200, db)
    ensures p.payloadType == Some(PayloadType) && FieldIsMessages(p) ==>
      match p.firstChange.value.value
      case None => r == Reply(ServerError500, db)
      case Some(v) =>
        (v.statuses.Some? ==> r == IngestStatus(db, v, f)) &&
        (v.statuses.None? ==> r == IngestMessage(db, v, now, f))
  {
    match Classify(p)
    case InvalidEnvelope => Reply(BadRequest400, db)
    case NoOp => Reply(Ok200, db)
    case Unreadable => Reply(ServerError500, db)
    case StatusEvent(v) => IngestStatus(db, v, f)
    case MessageEvent(v) => IngestMessage(db, v, now, f)
  }

  /** `processMessagePayload`; `ok` is false when it throws. */
  method ProcessMessagePayload(store: Store, v: ChangeValue, now: int, f: Faults) returns (ok: bool)
    modifies store
    ensures Reply(if ok then Ok200 else ServerError500, store.State()) == IngestMessage(old(store.State()), v, now, f)
  {
    if !Decodable(v) {
      return false;
    }
    var conversationData := ConversationData(v, now);
    var messageData := MessageData(v);
    var snapshot := store.State();
    ok := store.Upsert(conversationData, f.upsert);
    if !ok {
      return;
    }
    ok := store.CreateMessage(messageData, f.create);
    if !ok {
      store.Rollback(snapshot);
    }
  }

  /** `processStatusPayload`; `ok` is false when it throws. */
  method ProcessStatusPayload(store: Store, v: ChangeValue, f: Faults) returns (ok: bool)
    requires v.statuses.Some?
    modifies store
    ensures Reply(if ok then Ok200 else ServerError500, store.State()) == IngestStatus(old(store.State()), v, f)
  {
    var statuses := v.statuses.value;
    if |statuses| == 0 {
      return false;
    }
    var key := StatusKey(statuses[0]);
    if key.None? {
      return false;
    }
    ok := store.UpdateStatus(key.value, statuses[0].status, f.update);
  }

  /** `POST`: the response status; every throw becomes a 500. */
  method Post(store: Store, p: Payload, now: int, f: Faults) returns (status: HttpStatus)
    modifies store
    ensures Reply(status, store.State()) == Handle(old(store.State()), p, now, f)
  {
    if p.payloadType != Some(PayloadType) {
      return BadRequest400;
    }
    var ok := true;
    if FieldIsMessages(p) {
      var value := p.firstChange.value.value;
      if value.None? {
        ok := false;
      } else if value.value.statuses.Some? {
        ok := ProcessStatusPayload(store, value.value, f);
      } else {
        ok := ProcessMessagePayload(store, value.value, now, f);
      }
    }
    status := if ok then Ok200 else ServerError500;
  }

  // ----- properties of the endpoint -----

  lemma IngestMessagePreservesConsistent(db: Db, v: ChangeValue, now: int, f: Faults)
    requires Consistent(db)
    ensures Consistent(IngestMessage(db, v, now, f).db)
  {
    var r := IngestMessage(db, v, now, f);
    if r.status == Ok200 {
      var key, id := v.contacts[0].waId, v.messages[0].id;
      var stored := r.db.messages[id];
      assert stored.conversationId == key && key in r.db.conversations;
      assert stored.direction == Inbound || stored.direction == Outbound;
      forall k | k in r.db.conversations ensures r.db.conversations[k].conversationId == k {
        if k != key {
          assert r.db.conversations[k] == db.conversations[k];
        }
      }
      forall k | k in r.db.messages
        ensures r.db.messages[k].messageId == k
        ensures r.db.messages[k].conversationId in r.db.conversations
        ensures r.db.messages[k].direction == Inbound || r.db.messages[k].direction == Outbound
      {
        if k != id {
          assert r.db.messages[k] == db.messages[k];
        }
      }
    }
  }

  lemma IngestStatusPreservesConsistent(db: Db, v: ChangeValue, f: Faults)
    requires Consistent(db) && v.statuses.Some?
    ensures Consistent(IngestStatus(db, v, f).db)
  {
    var r := IngestStatus(db, v, f);
    if r.status == Ok200 {
      var key := StatusKey(v.statuses.value[0]).value;
      forall k | k in r.db.messages
        ensures r.db.messages[k].messageId == k
        ensures r.db.messages[k].conversationId in r.db.conversations
        ensures r.db.messages[k].direction == Inbound || r.db.messages[k].direction == Outbound
      {
        if k != key {
          assert r.db.messages[k] == db.messages[k];
        }
      }
    }
  }

  /** Every request keeps the store consistent. */
  lemma HandlePreservesConsistent(db: Db, p: Payload, now: int, f: Faults)
    requires Consistent(db)
    ensures Consistent(Handle(db, p, now, f).db)
  {
    match Classify(p)
    case StatusEvent(v) => IngestStatusPreservesConsistent(db, v, f);
    case MessageEvent(v) => IngestMessagePreservesConsistent(db, v, now, f);
    case _ =>
  }

  /** A provider retry of a message event that went through is refused with a
      500 and writes nothing, so the store still holds the message once. */
  lemma RedeliveryRefused(db: Db, p: Payload, now: int, later: int, f: Faults, g: Faults)
    requires Classify(p).MessageEvent?
    requires Handle(db, p, now, f).status == Ok200
    ensures var db' := Handle(db, p, now, f).db;
      Handle(db', p, later, g) == Reply(ServerError500, db')
  {
  }

  /** Replaying a status event that went through changes nothing more. */
  lemma StatusReplayIdempotent(db: Db, p: Payload, now: int, later: int, f: Faults, g: Faults)
    requires Classify(p).StatusEvent?
    requires Handle(db, p, now, f).status == Ok200
    requires !g.update
    ensures var db' := Handle(db, p, now, f).db;
      Handle(db', p, later, g) == Reply(Ok200, db')
  {
    var v := Classify(p).value;
    var s := v.statuses.value[0];
    var key := StatusKey(s).value;
    var db' := Handle(db, p, now, f).db;
    var db'' := Handle(db', p, later, g).db;
    assert db''.messages == db'.messages;
  }

  /** The status is overwritten, not ranked: a late "delivered" replaces "read". */
  lemma StatusCanRegress(db: Db, id: string, now: int)
    requires id != "" && id in db.messages && db.messages[id].status == "read"
    ensures var p := Payload(Some(PayloadType), Some(Change(Some(MessagesField), Some(
              ChangeValue(None, [], [], Some([StatusEntry(Some(id), None, Some("delivered"))]))))));
      && var r := Handle(db, p, now, NoFaults);
      && r.status == Ok200
      && r.db.messages[id].status == "delivered"
  {
  }

  /** `last_message_at` is overwritten, not merged: an older event moves it back. */
  lemma LastMessageAtCanRegress(db: Db, v: ChangeValue, now: int)
    requires Decodable(v) && v.messages[0].id !in db.messages
    requires v.contacts[0].waId in db.conversations
    requires db.conversations[v.contacts[0].waId].lastMessageAt > v.messages[0].timestamp * 1000
    ensures var r := IngestMessage(db, v, now, NoFaults);
      && r.status == Ok200
      && r.db.conversations[v.contacts[0].waId].lastMessageAt < db.conversations[v.contacts[0].waId].lastMessageAt
  {
  }

  /** A first message from a new contact creates the conversation and stores an
      inbound message with status "received"; a status event for it then sets
      its status. */
  lemma FirstContactScenario(now: int)
    ensures
      var contact := Contact("111", "Ravi");
      var msg := WaMessage("wamid.1", "111", "text", Some("hi"), 1749416400);
      var msgPayload := Payload(Some(PayloadType), Some(Change(Some(MessagesField), Some(
        ChangeValue(Some(Metadata(BusinessNumber)), [contact], [msg], None)))));
      var r1 := Handle(Db(map[], map[]), msgPayload, now, NoFaults);
      var statusPayload := Payload(Some(PayloadType), Some(Change(Some(MessagesField), Some(
        ChangeValue(None, [], [], Some([StatusEntry(Some("wamid.1"), None, Some("delivered"))]))))));
      var r2 := Handle(r1.db, statusPayload, now, NoFaults);
      && r1.status == Ok200
      && r1.db.conversations == map["111" := Conversation("111", "111", "Ravi", 1749416400000, now)]
      && r1.db.messages.Keys == {"wamid.1"}
      && r1.db.messages["wamid.1"].direction == Inbound
      && r1.db.messages["wamid.1"].status == "received"
      && r2.status == Ok200
      && r2.db.messages["wamid.1"].status == "delivered"
  {
  }
}
