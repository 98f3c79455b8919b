# Whatsdown conversation store and chat view, in Dafny

This project models the logic of a small web app that keeps WhatsApp-style
conversations and messages in a relational store and shows them as chats.

- **Webhook ingestor** (`POST` in `src/app/api/webhook/route.ts`): checks the
  `payload_type` envelope, classifies the first change as a status event, a
  message event or nothing to do. A message event upserts the conversation and
  inserts the message in one transaction. A status event overwrites the status
  of the message whose `message_id` the event names.
- **Send action** (`sendMessage` in `src/app/action.ts`): checks that the
  conversation exists, inserts an outbound message under a fresh id, then
  bumps the conversation's `last_message_at`. These are two separate writes.
  Every error becomes `{ success: false, error }`.
- **Page partition** (`src/app/page.tsx`): splits each conversation's messages
  into `sent` (outbound) and `received` (inbound).
- **Chat view** (`src/app/Components/WhatsappInterface.tsx`): `transformedChats`
  turns grouped conversations into chat views. `handleSendMessage` calls the
  send action and, on success, appends an optimistic message to the selected
  chat.

The store is two maps: conversations keyed by `conversation_id` and messages
keyed by `message_id` (`StoreAdapter.Db`). The `StoreAdapter.Store` class is
the shared store client. It has one method per kind of store call the code
makes, and each of them can throw. The server operations are methods against
that class (`Webhook.Post`, `Action.SendMessage`). Each is proved equal to a
pure function of the old store (`Webhook.Handle`, `Action.Send`), and the
lemmas are proved about those functions. The client's `selectedChat` and draft
state is the class `Interface.ChatPanel`.

Inputs the code reads from its environment are parameters:

- the clock is `now`, an integer number of milliseconds;
- the generated uuid is `freshId`;
- a store call that throws for a reason outside the model (store unreachable,
  timeout) is a flag in `StoreAdapter.Faults`.

Behaviours one might expect that the code does not have (the model follows the
code):

- `last_message_at` is overwritten, not max-merged (`Webhook.LastMessageAtCanRegress`).
- Any status overwrites any other; statuses are not ranked (`Webhook.StatusCanRegress`).
- A duplicate `message_id` makes the transaction fail with a 500; it is not
  skipped as a success (`Webhook.RedeliveryRefused`).
- A status event for an unknown message is a 500, not a silent skip.
- A mirrored outbound message is stored with status `"received"`, not `"sent"`.
- The send action is not atomic (`Action.SendLeavesOrphanOnUpdateFailure`), and
  it does not reject empty text.
- Messages with equal timestamps keep their stored order; there is no tie-break
  on the message id.
- "Yesterday" means between 24 and 48 hours away from now, in either
  direction, not the previous calendar day (`Interface.FormatTime`).

The chat view takes a customer's phone from a `wa_id` field of the first
inbound message. Neither write path stores such a field: both write
`sender_wa_id`. So for rows written by this app the phone is always the
conversation id (`Interface.PhoneWithoutWaId`). The store schema is not part
of this model, so the model keeps the field as an optional value on the rows
the view reads.

## Model

| member | source | states |
|---|---|---|
| `StoreAdapter.Upserted` | src/app/api/webhook/route.ts:68-74 | upsert: a new key gets the row as given; an existing row changes only `last_message_at`; other rows and all messages are untouched |
| `StoreAdapter.Inserted` | src/app/api/webhook/route.ts:76-78 | create: exactly one new message under its id; every earlier message and every conversation is unchanged |
| `StoreAdapter.StatusSet` | src/app/api/webhook/route.ts:87-94 | update: only the named message's `status` changes (an absent status changes nothing); every other row is unchanged |
| `StoreAdapter.LastMessageAtSet` | src/app/action.ts:45-50 | update: only the named conversation's `last_message_at` changes |
| `StoreAdapter.Store.FindConversation` | src/app/action.ts:18-20 | `findUnique`: the row under that key, none when absent, and a throw when the store fails |
| `StoreAdapter.Store.Upsert` | src/app/api/webhook/route.ts:68-74 | the store becomes `Upserted` of the old store, or stays as it was when the call throws |
| `StoreAdapter.Store.CreateMessage` | src/app/action.ts:29-42 | succeeds exactly when the id is new and the conversation exists; the store becomes `Inserted`, or stays as it was |
| `StoreAdapter.Store.UpdateStatus` | src/app/api/webhook/route.ts:87-94 | succeeds exactly when a message has that id; throws on an unknown id without writing |
| `StoreAdapter.Store.UpdateLastMessageAt` | src/app/action.ts:45-50 | succeeds exactly when the conversation exists; throws on an unknown id without writing |
| `StoreAdapter.Store.Rollback` | src/app/api/webhook/route.ts:67-79 | an aborted transaction leaves the store exactly as it was before it |
| `Webhook.Classify` | src/app/api/webhook/route.ts:8-24 | invalid envelope iff `payload_type` is not `"whatsapp_webhook"`; nothing to do iff the first change's field is not `"messages"`; unreadable iff that change has no `value`; every other `"messages"` change is processed: as a status event when `value.statuses` is present, as a message event otherwise |
| `Webhook.Handle` | src/app/api/webhook/route.ts:4-37 | 400 iff the envelope is wrong; any non-200 leaves the store unchanged; a change whose field is not `"messages"` gives 200 and writes nothing; a `"messages"` change without `value` gives 500; one with `statuses` gets exactly `IngestStatus`'s reply, one without gets exactly `IngestMessage`'s |
| `Webhook.ConversationData` | src/app/api/webhook/route.ts:44-50 | the row for a new contact: keyed and named by the first contact, `last_message_at` the message time in milliseconds, created now |
| `Webhook.MessageData` | src/app/api/webhook/route.ts:52-65 | the message row: the payload's id, the contact's conversation, outbound iff sent from the business's own number and inbound otherwise, status "received", the time in milliseconds, `sender_wa_id = from` |
| `Webhook.IngestMessage` | src/app/api/webhook/route.ts:39-80 | 200 iff contacts, messages and metadata are there, the message id is new and neither write throws; the conversation is created from the contact or only gets `last_message_at = timestamp*1000`; the stored message has the payload's id, `direction` outbound iff `display_phone_number == from`, `status "received"`, `sender_wa_id = from`; on failure nothing is written |
| `Webhook.StatusKey` | src/app/api/webhook/route.ts:89 | the message is named by `id` unless it is missing or empty, then by `meta_msg_id` |
| `Webhook.IngestStatus` | src/app/api/webhook/route.ts:82-95 | 200 iff `statuses[0]` names a stored message and the update does not throw; then only that message's status is overwritten, unconditionally; otherwise nothing changes |
| `Webhook.ProcessMessagePayload` | src/app/api/webhook/route.ts:39-80 | the upsert and the create against the store, rolled back together when the create throws, end in exactly `IngestMessage` |
| `Webhook.ProcessStatusPayload` | src/app/api/webhook/route.ts:82-95 | the update against the store ends in exactly `IngestStatus` |
| `Webhook.Post` | src/app/api/webhook/route.ts:4-37 | the response status and the new store are exactly `Handle` of the old store |
| `Webhook.IngestMessagePreservesConsistent` | src/app/api/webhook/route.ts:44-79 | a message event keeps every row under its own key, every message in a stored conversation, every direction inbound or outbound |
| `Webhook.IngestStatusPreservesConsistent` | src/app/api/webhook/route.ts:87-94 | a status event keeps the store consistent |
| `Webhook.HandlePreservesConsistent` | src/app/api/webhook/route.ts:4-37 | every webhook request keeps the store consistent |
| `Webhook.RedeliveryRefused` | src/app/api/webhook/route.ts:67-79 | a retried message event that already went through gets a 500 and writes nothing, so the message is stored once |
| `Webhook.StatusReplayIdempotent` | src/app/api/webhook/route.ts:87-94 | replaying a status event that went through returns 200 and changes nothing more |
| `Webhook.StatusCanRegress` | src/app/api/webhook/route.ts:87-94 | a "delivered" event overwrites "read": statuses are not ranked |
| `Webhook.LastMessageAtCanRegress` | src/app/api/webhook/route.ts:70-72 | an older message event moves `last_message_at` back |
| `Webhook.FirstContactScenario` | src/app/api/webhook/route.ts:39-94 | a first message from contact 111 creates conversation 111 and one inbound message with status "received"; a status event then sets it to "delivered" |
| `Action.Send` | src/app/action.ts:15-59 | an unknown conversation fails with the message naming the wa_id and writes nothing; success iff every store call goes through, returning the fresh id; the new message is text, outbound, "sent", with the given body, the business number as sender and the send time; on success `last_message_at` equals that time; a throwing create or a taken id writes nothing; a failed bump still leaves the message; nothing else changes |
| `Action.OutboundMessage` | src/app/action.ts:29-42 | the row the send creates: the fresh id, the contact's conversation, outbound, text, "sent", the given body, the send time, the business number as sender |
| `Action.SendMessage` | src/app/action.ts:15-59 | lookup, create and update against the store, every throw caught, end in exactly `Send` |
| `Action.SendPreservesConsistent` | src/app/action.ts:29-50 | a send keeps the store consistent |
| `Action.SendToUnknownScenario` | src/app/action.ts:18-24 | sending to 999 with no such conversation fails with "No existing conversation found for WA ID: 999" and creates nothing |
| `Action.SendScenario` | src/app/action.ts:26-52 | sending "hello" to 111 stores one outbound "sent" message and moves the conversation's `last_message_at` to the send time |
| `Action.SendLeavesOrphanOnUpdateFailure` | src/app/action.ts:29-58 | when the second write fails the result is a failure, yet the created message stays and `last_message_at` is not bumped |
| `Page.WithDirection` | src/app/page.tsx:20-21 | the filter keeps exactly the messages with that direction |
| `Page.GroupAll` | src/app/page.tsx:19-27 | one grouped entry per conversation, in the same order, carrying the whole conversation unchanged |
| `Page.WithDirectionIsOrderedFilter` | src/app/page.tsx:20-21 | `sent` and `received` are subsequences of the messages, holding each matching message as often as it occurs and no other |
| `Page.Group` | src/app/page.tsx:19-27 | the conversation passes through unchanged; a message is in `sent` iff it is one of its outbound messages, in `received` iff inbound, never in both |
| `Page.PartitionSizes` | src/app/page.tsx:20-21 | `sent` and `received` together are no longer than the messages |
| `Page.PartitionComplete` | src/app/page.tsx:20-21 | when every direction is inbound or outbound, `sent` and `received` together are exactly the messages |
| `Page.WithDirectionAscending` | src/app/page.tsx:8-21 | the store's ascending timestamp order carries over to `sent` and `received` |
| `Sorting.SortByTime` | src/app/Components/WhatsappInterface.tsx:51-55 | the sorted list has as many messages as the conversation (its order and contents are `SortByTimeCorrect`) |
| `Sorting.SortByTimeCorrect` | src/app/Components/WhatsappInterface.tsx:51-55 | the sorted messages are ascending by timestamp, a permutation of the input, and stable: the messages at each timestamp keep their order |
| `Sorting.StableSortUnique` | src/app/Components/WhatsappInterface.tsx:51-55 | any two ascending, stable rearrangements are equal, so the sort's result is fully determined |
| `Sorting.SortByTimeCharacterised` | src/app/Components/WhatsappInterface.tsx:51-55 | a list is the sorted messages iff it is ascending and agrees with the input at every timestamp |
| `Sorting.SortAscendingIsIdentity` | src/app/Components/WhatsappInterface.tsx:51-55 | messages already in ascending order are left as they are |
| `Sorting.InsertInPlace` | src/app/Components/WhatsappInterface.tsx:51-55 | one insertion step in the array: the prefix becomes the old prefix with the next element inserted after every element not later than it |
| `Sorting.SortInPlace` | src/app/Components/WhatsappInterface.tsx:51-55 | the array sorted in place holds exactly the stable sort of its old contents |
| `Interface.DiffDays` | src/app/Components/WhatsappInterface.tsx:64-65 | the day count is the ceiling of the distance in days |
| `Interface.FormatTime` | src/app/Components/WhatsappInterface.tsx:61-81 | clock time iff at most a day away (including the same instant), "Yesterday" iff one to two days away, the date iff more |
| `Interface.RecentCount` | src/app/Components/WhatsappInterface.tsx:88-93 | the badge is at most the number of received messages; it equals it iff all are later than an hour ago, and it is 0 iff none is |
| `Interface.RecentCountFalls` | src/app/Components/WhatsappInterface.tsx:88-93 | a later clock never gives a larger badge |
| `Interface.RecentCountOfReceived` | src/app/Components/WhatsappInterface.tsx:88-93 | over the page's `received` list the badge counts the conversation's inbound messages later than an hour ago |
| `Interface.FirstInbound` | src/app/Components/WhatsappInterface.tsx:41-43 | the first inbound message in the stored order, or none when there is no inbound message |
| `Interface.Phone` | src/app/Components/WhatsappInterface.tsx:41-48 | when a message is inbound and no earlier one is, the phone is its `wa_id` if that is non-empty and the conversation id otherwise; with no inbound message it is the conversation id |
| `Interface.PhoneWithoutWaId` | src/app/Components/WhatsappInterface.tsx:41-48 | with no `wa_id` on the messages the phone is the conversation id |
| `Interface.Preview` | src/app/Components/WhatsappInterface.tsx:57-58 | the preview is never empty, and is "No messages" for a conversation without messages |
| `Interface.PreviewIsLatest` | src/app/Components/WhatsappInterface.tsx:51-58 | the preview comes from a message with the greatest timestamp, the last stored one among those; an empty or missing body shows "No messages" |
| `Interface.TransformMessage` | src/app/Components/WhatsappInterface.tsx:96-102 | a chat message keeps the stored id, text and status, is `sent` iff outbound, and its time is `formatTime` of its timestamp (clock time, "Yesterday" or the date by distance) |
| `Interface.TransformMessages` | src/app/Components/WhatsappInterface.tsx:96-102 | one chat message per sorted message, in order |
| `Interface.TransformChats` | src/app/Components/WhatsappInterface.tsx:36-39 | no input gives no chats; otherwise one chat per conversation, in input order |
| `Interface.TransformChat` | src/app/Components/WhatsappInterface.tsx:39-119 | a chat carries the conversation's ids, `phone` from the messages and `name = "+" + phone`, the preview of the last sorted message, one view message per sorted message, no time iff no messages and otherwise `formatTime` of the last sorted message, the badge counting the recent `received` messages, and the page's `sent` and `received` unchanged |
| `Interface.ChatViewFacts` | src/app/Components/WhatsappInterface.tsx:39-119 | a chat's messages are sorted ascending and stably with `sent` iff outbound, text, id, status and time bucket copied; preview and time come from the latest message (greatest timestamp, last stored among equals), "No messages" when it has no body or there are no messages; the badge is the recent-`received` count and no larger than `received`; the raw conversation carries its messages sorted |
| `Interface.ChatViewOfStoreOrder` | src/app/Components/WhatsappInterface.tsx:41-93 | for a conversation in the store's ascending order the sort changes nothing and the badge counts its recent inbound messages |
| `Interface.Trim` | src/app/Components/WhatsappInterface.tsx:125 | the trimmed draft is empty iff every character is white space or a line terminator |
| `Interface.WithOptimisticMessage` | src/app/Components/WhatsappInterface.tsx:130-155 | exactly one message `{sent: true, status: "sending", text: draft}` appended at the end, preview set to the draft, nothing else changed |
| `Interface.ContactOf` | src/app/Components/WhatsappInterface.tsx:141-144 | the send goes to the selected chat's conversation id, under the chat's name |
| `Interface.ChatPanel.constructor` | src/app/Components/WhatsappInterface.tsx:20-21 | no chat selected and an empty draft |
| `Interface.ChatPanel.HandleSendMessage` | src/app/Components/WhatsappInterface.tsx:123-159 | nothing happens for a blank draft or no selected chat; otherwise the store changes exactly as the send action says, the draft is cleared, and the selected chat gets the optimistic message only when the send succeeded |

## Left out

- HTTP plumbing: a response is reduced to its status code (200, 400 or 500); the response bodies are not modelled.
- JSON decoding: the model starts from a decoded payload. Invalid JSON (a 500) and fields of an unexpected type are not modelled.
- Fields missing inside a contact or a message (for example `profile`) throw and give a 500, like the missing arrays the model does cover; they are not modelled separately.
- `parseInt` of the message timestamp: the payload carries it as whole seconds; a non-numeric value (an invalid date) is not modelled.
- The store engine: it is two maps. The only constraints modelled are the unique `message_id`, the unique `conversation_id` and the message-to-conversation foreign key; other schema constraints are not known.
- Store-assigned row ids (`id`) are not produced by the write path; the rows the view reads carry them as given.
- Why a store call throws, beyond an unknown or duplicate key: it is a fault flag. The error text of such a throw is `StoreFailure`.
- Concurrency: requests are sequential. Another request running between the send action's lookup and its writes is not modelled. So is a state change while `handleSendMessage` awaits the send, such as a chat deselected meanwhile.
- Clock readings: one `now` stands for every reading in a render or a send (`formatTime` and `Date.now()` read the clock on each call).
- Locale formatting: `toLocaleTimeString` and `toLocaleDateString` are reduced to which of the three formats is chosen.
- The store fetch in `page.tsx`: its ascending order is a hypothesis of the lemmas that need it.
- Conversations without `messages` or `received` (the `?.`, `|| []` and `|| 0` fallbacks): every conversation the page passes has both, so the model's input always carries them.
- `console.log`, JSX rendering, CSS classes, avatars and their `onError` fallbacks, the resize listener and `isMobile`, `handleChatSelect` and `handleBack`: presentation only.
- Periodic polling and replacing optimistic messages by stored ones: no such code is part of this model.
