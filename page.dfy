/** The server page (src/app/page.tsx): every fetched conversation is passed on
    with all its fields and two extra lists, `sent` (its outbound messages) and
    `received` (its inbound ones), each in the order of the conversation's
    messages.  The fetch itself is not part of this model; the store returns
    each conversation's messages ascending by timestamp, which the lemmas below
    take as a hypothesis where they need it. */
module Page {
  import opened Records
  import opened Sorting

  /** `{ ...convo, sent, received }` */
  datatype GroupedConversation = Grouped(convo: ConversationRecord, sent: seq<MessageRecord>, received: seq<MessageRecord>)

  /** `messages.filter((m) => m.direction === d)` */
  function WithDirection(ms: seq<MessageRecord>, d: string): (r: seq<MessageRecord>)
    ensures |r| <= |ms|
    ensures forall m :: m in r <==> m in ms && m.data.direction == d
  {
    if ms == [] then []
    else (if ms[0].data.direction == d then [ms[0]] else []) + WithDirection(ms[1..], d)
  }

  /** One entry of the page's list: the conversation unchanged, `sent` holding
      exactly its outbound messages and `received` exactly its inbound ones, so
      no message is in both and one with any other direction is in neither. */
  function Group(c: ConversationRecord): (g: GroupedConversation)
    ensures g.convo == c
    ensures forall m :: m in g.sent <==> m in c.messages && m.data.direction == Outbound
    ensures forall m :: m in g.received <==> m in c.messages && m.data.direction == Inbound
    ensures forall m :: !(m in g.sent && m in g.received)
  {
    Grouped(c, WithDirection(c.messages, Outbound), WithDirection(c.messages, Inbound))
  }

  /** `conversations.map(...)`: one grouped entry per conversation, same order. */
  function GroupAll(cs: seq<ConversationRecord>): (r: seq<GroupedConversation>)
    ensures |r| == |cs|
    ensures forall i :: 0 <= i < |cs| ==> r[i].convo == cs[i]
    ensures forall i :: 0 <= i < |cs| ==> r[i] == Group(cs[i])
  {
    seq(|cs|, i requires 0 <= i < |cs| => Group(cs[i]))
  }

  /** `r` is `s` with some elements left out, the rest in their order. */
  predicate IsSubsequence(r: seq<MessageRecord>, s: seq<MessageRecord>)
    decreases |s|
  {
    r == [] || (s != [] && ((r[0] == s[0] && IsSubsequence(r[1..], s[1..])) || IsSubsequence(r, s[1..])))
  }

  /** The filter keeps order, and keeps each message with direction `d` as
      often as it occurs, and no other. */
  lemma {:induction false} WithDirectionIsOrderedFilter(ms: seq<MessageRecord>, d: string)
    ensures IsSubsequence(WithDirection(ms, d), ms)
    ensures forall m :: multiset(WithDirection(ms, d))[m] == if m.data.direction == d then multiset(ms)[m] else 0
  {
    if ms != [] {
      WithDirectionIsOrderedFilter(ms[1..], d);
      assert ms == [ms[0]] + ms[1..];
      var r, rest := WithDirection(ms, d), WithDirection(ms[1..], d);
      if ms[0].data.direction == d {
        assert r == [ms[0]] + rest && r[0] == ms[0] && r[1..] == rest;
      } else {
        assert r == rest;
      }
    }
  }

  lemma {:induction false} PartitionSizes(ms: seq<MessageRecord>)
    ensures |WithDirection(ms, Outbound)| + |WithDirection(ms, Inbound)| <= |ms|
  {
    if ms != [] {
      PartitionSizes(ms[1..]);
    }
  }

  /** When every message is inbound or outbound, `sent` and `received` together
      are exactly the conversation's messages. */
  lemma {:induction false} PartitionComplete(ms: seq<MessageRecord>)
    requires forall m :: m in ms ==> m.data.direction == Outbound || m.data.direction == Inbound
    ensures multiset(WithDirection(ms, Outbound)) + multiset(WithDirection(ms, Inbound)) == multiset(ms)
  {
    if ms != [] {
      PartitionComplete(ms[1..]);
      assert ms == [ms[0]] + ms[1..];
    }
  }

  /** Filtering keeps the store's ascending order. */
  lemma {:induction false} WithDirectionAscending(ms: seq<MessageRecord>, d: string)
    requires Ascending(ms)
    ensures Ascending(WithDirection(ms, d))
  {
    if ms != [] {
      assert Ascending(ms[1..]);
      WithDirectionAscending(ms[1..], d);
      var rest := WithDirection(ms[1..], d);
      forall m | m in rest ensures Time(ms[0]) <= Time(m) {
        var k :| 0 <= k < |ms[1..]| && ms[1..][k] == m;
        assert ms[k + 1] == m;
      }
    }
  }
}
