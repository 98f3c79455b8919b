/** The client view (src/app/Components/WhatsappInterface.tsx): the projection
    `transformedChats` from grouped conversations to chat views, and the send
    handler `handleSendMessage`, which calls the send action and, on success,
    appends an optimistic message to the selected chat.  The clock is a
    parameter `now` in milliseconds; the locale strings the view shows for a
    time are reduced to which of the three formats it picks. */
module Interface {
  import opened Records
  import opened Sorting
  import opened Page
  import opened StoreAdapter
  import Action

  const MsPerHour: int := 60 * 60 * 1000
  const MsPerDay: int := 1000 * 60 * 60 * 24
  const NoMessagesText: string := "No messages"
  const SendingStatus: string := "sending"

  /** Which of the three formats `formatTime` produces: `toLocaleTimeString`,
      the literal "Yesterday", or `toLocaleDateString`. */
  datatype TimeBucket = ClockTime | Yesterday | CalendarDate

  /** A message's `id` in the view: the store's id, or `temp-<now>` for an
      optimistic one. */
  datatype ChatMessageId = StoreId(n: int) | TempId(at: int)

  datatype ChatMessage = ChatMessage(id: ChatMessageId, text: Option<string>, sent: bool, time: TimeBucket, status: string)

  /** A chat view; `time` is `None` where the view shows `""` (no messages). */
  datatype Chat = Chat(
    id: int,
    conversationId: string,
    name: string,
    phone: string,
    lastMessage: string,
    time: Option<TimeBucket>,
    unread: nat,
    messages: seq<ChatMessage>,
    rawData: GroupedConversation)

  // ----- formatTime -----

  function Abs(x: int): nat {
    if x < 0 then -x else x
  }

  /** `Math.ceil(Math.abs(now - t) / (1000 * 60 * 60 * 24))` */
  function DiffDays(t: int, now: int): (d: nat)
    ensures d * MsPerDay >= Abs(now - t)
    ensures d == 0 || (d - 1) * MsPerDay < Abs(now - t)
  {
    (Abs(now - t) + MsPerDay - 1) / MsPerDay
  }

  /** `formatTime`: the bucket by distance from `now`, in either direction:
      within a day (including the same instant) the clock time, between one
      and two days "Yesterday", beyond that the date. */
  function FormatTime(t: int, now: int): (b: TimeBucket)
    ensures b == ClockTime <==> Abs(now - t) <= MsPerDay
    ensures b == Yesterday <==> MsPerDay < Abs(now - t) <= 2 * MsPerDay
    ensures b == CalendarDate <==> 2 * MsPerDay < Abs(now - t)
  {
    var days := DiffDays(t, now);
    if days == 1 then ClockTime
    else if days == 2 then Yesterday
    else if days > 2 then CalendarDate
    else ClockTime
  }

  // ----- unreadCount -----

  /** `received.filter((msg) => msg.timestamp > Date.now() - 60 * 60 * 1000).length` */
  function RecentCount(received: seq<MessageRecord>, now: int): (n: nat)
    ensures n <= |received|
    ensures n == |received| <==> forall i :: 0 <= i < |received| ==> Time(received[i]) > now - MsPerHour
    ensures n == 0 <==> forall i :: 0 <= i < |received| ==> Time(received[i]) <= now - MsPerHour
  {
    if received == [] then 0
    else (if Time(received[0]) > now - MsPerHour then 1 else 0) + RecentCount(received[1..], now)
  }

  /** As time passes the badge can only go down. */
  lemma {:induction false} RecentCountFalls(received: seq<MessageRecord>, now: int, later: int)
    requires now <= later
    ensures RecentCount(received, later) <= RecentCount(received, now)
  {
    if received != [] {
      RecentCountFalls(received[1..], now, later);
    }
  }

  /** Number of inbound messages of `ms` later than an hour before `now`. */
  function RecentInbound(ms: seq<MessageRecord>, now: int): nat {
    if ms == [] then 0
    else
      var here := if ms[0].data.direction == Inbound && Time(ms[0]) > now - MsPerHour then 1 else 0;
      here + RecentInbound(ms[1..], now)
  }

  /** Over the `received` list the page builds, the badge counts the
      conversation's recent inbound messages. */
  lemma {:induction false} RecentCountOfReceived(ms: seq<MessageRecord>, now: int)
    ensures RecentCount(WithDirection(ms, Inbound), now) == RecentInbound(ms, now)
  {
    if ms != [] {
      RecentCountOfReceived(ms[1..], now);
      var rest := WithDirection(ms[1..], Inbound);
      var all := WithDirection(ms, Inbound);
      if ms[0].data.direction == Inbound {
        assert all == [ms[0]] + rest;
        assert all[0] == ms[0] && all[1..] == rest;
        assert RecentCount(all, now) == (if Time(ms[0]) > now - MsPerHour then 1 else 0) + RecentCount(rest, now);
      } else {
        assert all == rest;
      }
    }
  }

  // ----- customerPhone and lastMessage -----

  /** `messages.find((msg) => msg.direction === "inbound")`, as an index. */
  function FirstInbound(ms: seq<MessageRecord>): (r: Option<nat>)
    ensures r.Some? ==> r.value < |ms| && ms[r.value].data.direction == Inbound
    ensures r.Some? ==> forall k :: 0 <= k < r.value ==> ms[k].data.direction != Inbound
    ensures r.None? ==> forall k :: 0 <= k < |ms| ==> ms[k].data.direction != Inbound
  {
    if ms == [] then None
    else if ms[0].data.direction == Inbound then Some(0)
    else match FirstInbound(ms[1..])
      case None => None
      case Some(k) => Some(k + 1)
  }

  /** `customerMessage?.wa_id || conversation.conversation_id`, over the
      messages in the order they arrived, before the sort. */
  function Phone(ms: seq<MessageRecord>, conversationId: string): (r: string)
    // the non-empty `wa_id` of the earliest-stored inbound message, else the conversation id
    ensures forall k ::
      (0 <= k < |ms| && ms[k].data.direction == Inbound && (forall j :: 0 <= j < k ==> ms[j].data.direction != Inbound))
      ==> r == (if ms[k].waId.Some? && ms[k].waId.value != "" then ms[k].waId.value else conversationId)
    ensures (forall k :: 0 <= k < |ms| ==> ms[k].data.direction != Inbound) ==> r == conversationId
    ensures (forall k :: 0 <= k < |ms| && ms[k].data.direction == Inbound ==> ms[k].waId.None?) ==>
      r == conversationId
  {
    match FirstInbound(ms)
    case Some(k) =>
      var waId := ms[k].waId;
      if waId.Some? && waId.value != "" then waId.value else conversationId
    case None => conversationId
  }

  /** Messages as both writers store them carry no `wa_id`, so the phone shown
      is always the conversation id. */
  lemma PhoneWithoutWaId(ms: seq<MessageRecord>, conversationId: string)
    requires forall k :: 0 <= k < |ms| ==> ms[k].waId.None?
    ensures Phone(ms, conversationId) == conversationId
  {
  }

  /** `lastMessage?.text_body || "No messages"` */
  function Preview(sorted: seq<MessageRecord>): (r: string)
    ensures r != ""
    ensures sorted == [] ==> r == NoMessagesText
  {
    if sorted == [] then NoMessagesText
    else
      var body := sorted[|sorted| - 1].data.textBody;
      if body.Some? && body.value != "" then body.value else NoMessagesText
  }

  /** The preview shows the latest message: one with the greatest timestamp,
      and among several with that timestamp the last to arrive. */
  lemma PreviewIsLatest(ms: seq<MessageRecord>)
    requires ms != []
    ensures var sorted := SortByTime(ms);
      var latest := sorted[|sorted| - 1];
      var same := AtTime(ms, Time(latest));
      && latest in ms
      && (forall m :: m in ms ==> Time(m) <= Time(latest))
      && same != [] && same[|same| - 1] == latest
      && Preview(sorted) == (if latest.data.textBody.Some? && latest.data.textBody.value != ""
                             then latest.data.textBody.value else NoMessagesText)
  {
    var sorted := SortByTime(ms);
    SortByTimeCorrect(ms);
    var latest := sorted[|sorted| - 1];
    assert latest in multiset(sorted);
    forall m | m in ms ensures Time(m) <= Time(latest) {
      assert m in multiset(sorted);
      AscendingLastIsLatest(sorted, m);
    }
    var s' := sorted[..|sorted| - 1];
    assert sorted == s' + [latest];
    AtTimeSnoc(s', latest, Time(latest));
    assert AtTime(sorted, Time(latest)) == AtTime(ms, Time(latest));
  }

  // ----- transformedChats -----

  function TransformMessage(m: MessageRecord, now: int): (c: ChatMessage)
    ensures c.id == StoreId(m.id) && c.text == m.data.textBody && c.status == m.data.status
    ensures c.sent <==> m.data.direction == Outbound
    ensures c.time == FormatTime(Time(m), now)
  {
    ChatMessage(StoreId(m.id), m.data.textBody, m.data.direction == Outbound, FormatTime(Time(m), now), m.data.status)
  }

  function TransformMessages(sorted: seq<MessageRecord>, now: int): (r: seq<ChatMessage>)
    ensures |r| == |sorted|
    ensures forall i :: 0 <= i < |sorted| ==> r[i] == TransformMessage(sorted[i], now)
  {
    seq(|sorted|, i requires 0 <= i < |sorted| => TransformMessage(sorted[i], now))
  }

  /** One conversation's chat view.  The sort reorders `conversation.messages`
      itself, so `rawData` carries the sorted list. */
  function TransformChat(g: GroupedConversation, now: int): (chat: Chat)
    ensures chat.id == g.convo.id && chat.conversationId == g.convo.data.conversationId
    ensures chat.phone == Phone(g.convo.messages, g.convo.data.conversationId) && chat.name == "+" + chat.phone
    ensures chat.lastMessage != "" && chat.lastMessage == Preview(SortByTime(g.convo.messages))
    ensures chat.messages == TransformMessages(SortByTime(g.convo.messages), now)
    ensures |chat.messages| == |g.convo.messages|
    ensures chat.time.None? <==> g.convo.messages == []
    ensures g.convo.messages != [] ==>
      chat.time == Some(FormatTime(Time(SortByTime(g.convo.messages)[|g.convo.messages| - 1]), now))
    ensures chat.unread == RecentCount(g.received, now) && chat.unread <= |g.received|
    ensures chat.rawData.sent == g.sent && chat.rawData.received == g.received
  {
    var ms := g.convo.messages;
    var phone := Phone(ms, g.convo.data.conversationId);
    var sorted := SortByTime(ms);
    Chat(
      g.convo.id,
      g.convo.data.conversationId,
      "+" + phone,
      phone,
      Preview(sorted),
      if sorted == [] then None else Some(FormatTime(Time(sorted[|sorted| - 1]), now)),
      RecentCount(g.received, now),
      TransformMessages(sorted, now),
      g.(convo := g.convo.(messages := sorted)))
  }

  /** `transformedChats`; `None` stands for a missing or non-array input. */
  function TransformChats(input: Option<seq<GroupedConversation>>, now: int): (r: seq<Chat>)
    ensures input.None? ==> r == []
    ensures input.Some? ==> |r| == |input.value|
    ensures input.Some? ==> forall i :: 0 <= i < |r| ==> r[i] == TransformChat(input.value[i], now)
  {
    match input
    case None => []
    case Some(cs) => seq(|cs|, i requires 0 <= i < |cs| => TransformChat(cs[i], now))
  }

  /** What a chat view holds: the conversation's identity, its messages in
      ascending timestamp order (a stable rearrangement of the stored ones)
      with `sent` exactly for the outbound ones and the time bucket of each,
      the preview and time of the latest message (greatest timestamp, last
      stored among equals), the badge counting the recent `received` ones,
      and the raw conversation with its messages sorted. */
  lemma {:induction false} ChatViewFacts(g: GroupedConversation, now: int)
    ensures var chat := TransformChat(g, now);
      var sorted := SortByTime(g.convo.messages);
      && chat.id == g.convo.id
      && chat.conversationId == g.convo.data.conversationId
      && chat.name == "+" + chat.phone
      && |chat.messages| == |g.convo.messages|
      && Ascending(sorted) && SameAtEveryTime(sorted, g.convo.messages)
      && multiset(sorted) == multiset(g.convo.messages)
      && (forall i :: 0 <= i < |sorted| ==>
            && chat.messages[i].id == StoreId(sorted[i].id)
            && chat.messages[i].text == sorted[i].data.textBody
            && chat.messages[i].status == sorted[i].data.status
            && (chat.messages[i].sent <==> sorted[i].data.direction == Outbound)
            && chat.messages[i].time == FormatTime(Time(sorted[i]), now))
      && chat.unread == RecentCount(g.received, now) && chat.unread <= |g.received|
      && (chat.time.None? <==> g.convo.messages == [])
      && (g.convo.messages == [] ==> chat.lastMessage == NoMessagesText)
      && (g.convo.messages != [] ==>
            var latest := sorted[|sorted| - 1];
            var same := AtTime(g.convo.messages, Time(latest));
            && latest in g.convo.messages
            && (forall m :: m in g.convo.messages ==> Time(m) <= Time(latest))
            && same != [] && same[|same| - 1] == latest
            && chat.time == Some(FormatTime(Time(latest), now))
            && chat.lastMessage == (if latest.data.textBody.Some? && latest.data.textBody.value != ""
                                    then latest.data.textBody.value else NoMessagesText))
      && chat.rawData == g.(convo := g.convo.(messages := sorted))
  {
    SortByTimeCorrect(g.convo.messages);
    if g.convo.messages != [] {
      PreviewIsLatest(g.convo.messages);
    }
  }

  /** For conversations the page built from the store's ascending lists, the
      sort changes nothing and the badge counts the recent inbound messages. */
  lemma ChatViewOfStoreOrder(c: ConversationRecord, now: int)
    requires Ascending(c.messages)
    ensures var chat := TransformChat(Group(c), now);
      && chat.rawData == Group(c)
      && chat.messages == TransformMessages(c.messages, now)
      && chat.unread == RecentInbound(c.messages, now)
      && chat.unread <= |Group(c).received|
  {
    SortAscendingIsIdentity(c.messages);
    RecentCountOfReceived(c.messages, now);
  }

  // ----- handleSendMessage -----

  /** The characters `String.prototype.trim` removes: white space and line
      terminators. */
  predicate IsTrimmable(c: char) {
    c == '\t' || c == '\n' || c == '\U{000B}' || c == '\U{000C}' || c == '\r' || c == ' ' ||
    c == '\U{00A0}' || c == '\U{1680}' || ('\U{2000}' <= c <= '\U{200A}') ||
    c == '\U{2028}' || c == '\U{2029}' || c == '\U{202F}' || c == '\U{205F}' ||
    c == '\U{3000}' || c == '\U{FEFF}'
  }

  function TrimStart(s: string): (r: string)
    ensures |r| <= |s| && r == s[|s| - |r|..]
    ensures r != [] ==> !IsTrimmable(r[0])
    ensures r == [] <==> forall i :: 0 <= i < |s| ==> IsTrimmable(s[i])
  {
    if s != [] && IsTrimmable(s[0]) then TrimStart(s[1..]) else s
  }

  function TrimEnd(s: string): (r: string)
    ensures |r| <= |s| && r == s[..|r|]
    ensures r != [] ==> !IsTrimmable(r[|r| - 1])
    ensures r == [] <==> forall i :: 0 <= i < |s| ==> IsTrimmable(s[i])
  {
    if s != [] && IsTrimmable(s[|s| - 1]) then TrimEnd(s[..|s| - 1]) else s
  }

  /** `s.trim()` */
  function Trim(s: string): (r: string)
    ensures r == [] <==> forall i :: 0 <= i < |s| ==> IsTrimmable(s[i])
    ensures r != [] ==> !IsTrimmable(r[0]) && !IsTrimmable(r[|r| - 1])
  {
    TrimEnd(TrimStart(s))
  }

  /** The chat after a confirmed send: the optimistic message at the end, the
      draft as the preview and the clock time as the time. */
  function WithOptimisticMessage(chat: Chat, text: string, now: int): (r: Chat)
    ensures |r.messages| == |chat.messages| + 1
    ensures r.messages[..|chat.messages|] == chat.messages
    ensures r.messages[|chat.messages|] == ChatMessage(TempId(now), Some(text), true, ClockTime, SendingStatus)
    ensures r.lastMessage == text && r.time == Some(ClockTime)
    ensures r.(messages := chat.messages, lastMessage := chat.lastMessage, time := chat.time) == chat
  {
    chat.(
      messages := chat.messages + [ChatMessage(TempId(now), Some(text), true, ClockTime, SendingStatus)],
      lastMessage := text,
      time := Some(ClockTime))
  }

  /** The contact `handleSendMessage` passes to the send action,
      `{ wa_id: selectedChat.conversationId, name: selectedChat.name }`: the
      send goes to the selected chat's conversation. */
  function ContactOf(chat: Chat): (c: Contact)
    ensures c.waId == chat.conversationId && c.name == chat.name
  {
    Contact(chat.conversationId, chat.name)
  }

  /** The component's `selectedChat` and `message` (the draft) state. */
  class ChatPanel {
    var selectedChat: Option<Chat>
    var draft: string

    constructor ()
      ensures selectedChat == None && draft == ""
    {
      selectedChat := None;
      draft := "";
    }

    /** `handleSendMessage`, with `freshId` and `now` for the uuid and the clock
        readings of the send, and `f` for the store calls that throw. */
    method HandleSendMessage(store: Store, freshId: string, now: int, f: Faults)
      modifies this, store
      ensures Trim(old(draft)) == "" || old(selectedChat).None? ==>
        selectedChat == old(selectedChat) && draft == old(draft) && store.State() == old(store.State())
      ensures Trim(old(draft)) != "" && old(selectedChat).Some? ==>
        var chat := old(selectedChat).value;
        var reply := Action.Send(old(store.State()), ContactOf(chat), old(draft), freshId, now, f);
        && store.State() == reply.db
        && draft == ""
        && selectedChat == (if reply.result.Sent? then Some(WithOptimisticMessage(chat, old(draft), now))
                            else old(selectedChat))
    {
      if Trim(draft) != "" && selectedChat.Some? {
        var text := draft;
        var chat := selectedChat.value;
        ghost var reply := Action.Send(store.State(), ContactOf(chat), text, freshId, now, f);
        var sent := Action.SendMessage(store, ContactOf(chat), text, freshId, now, f);
        assert sent == reply.result && store.State() == reply.db;
        if sent.Sent? {
          selectedChat := Some(WithOptimisticMessage(chat, text, now));
        }
        draft := "";
      }
    }
  }
}
