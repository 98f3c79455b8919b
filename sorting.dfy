/** Ordering messages by timestamp, as `conversation.messages.sort(...)` does
    with the comparator `a.timestamp - b.timestamp`.  JavaScript's sort is
    stable, so the result is determined: the messages in ascending timestamp
    order, and messages with equal timestamps in their original order.
    `SortByTime` is that result (an insertion sort that inserts each element
    after every element not later than it); `StableSortUnique` shows that no
    other stable sort can give anything else, and `SortInPlace` is the
    in-place sort on an array, proved to leave exactly `SortByTime` behind. */
module Sorting {
  import opened Records

  function Time(m: MessageRecord): int {
    m.data.timestamp
  }

  predicate Ascending(s: seq<MessageRecord>) {
    forall i, j :: 0 <= i < j < |s| ==> Time(s[i]) <= Time(s[j])
  }

  /** The elements of `s` whose timestamp is `t`, in their order in `s`. */
  function AtTime(s: seq<MessageRecord>, t: int): (r: seq<MessageRecord>)
    ensures |r| <= |s|
  {
    if s == [] then []
    else AtTime(s[..|s| - 1], t) + (if Time(s[|s| - 1]) == t then [s[|s| - 1]] else [])
  }

  /** Inserts `x` after the last element of `r` whose timestamp is not later than `x`'s. */
  function Insert(r: seq<MessageRecord>, x: MessageRecord): seq<MessageRecord>
  {
    if r == [] || Time(r[|r| - 1]) <= Time(x) then r + [x]
    else Insert(r[..|r| - 1], x) + [r[|r| - 1]]
  }

  function SortByTime(s: seq<MessageRecord>): (r: seq<MessageRecord>)
    ensures |r| == |s|
  {
    if s == [] then []
    else
      var s', last := s[..|s| - 1], s[|s| - 1];
      assert s == s' + [last];
      InsertPermutes(SortByTime(s'), last);
      Insert(SortByTime(s'), last)
  }

  lemma AtTimeSnoc(s: seq<MessageRecord>, x: MessageRecord, t: int)
    ensures AtTime(s + [x], t) == AtTime(s, t) + (if Time(x) == t then [x] else [])
  {
    assert (s + [x])[..|s|] == s;
  }

  lemma {:induction false} AtTimeMembers(s: seq<MessageRecord>, t: int, x: MessageRecord)
    ensures x in AtTime(s, t) <==> x in s && Time(x) == t
  {
    if s != [] {
      var s', last := s[..|s| - 1], s[|s| - 1];
      assert s == s' + [last];
      AtTimeMembers(s', t, x);
    }
  }

  lemma {:induction false} InsertPermutes(r: seq<MessageRecord>, x: MessageRecord)
    ensures |Insert(r, x)| == |r| + 1
    ensures multiset(Insert(r, x)) == multiset(r) + multiset{x}
  {
    if !(r == [] || Time(r[|r| - 1]) <= Time(x)) {
      var r' := r[..|r| - 1];
      assert r == r' + [r[|r| - 1]];
      InsertPermutes(r', x);
    }
  }

  lemma {:induction false} InsertAscending(r: seq<MessageRecord>, x: MessageRecord)
    requires Ascending(r)
    ensures Ascending(Insert(r, x))
  {
    if !(r == [] || Time(r[|r| - 1]) <= Time(x)) {
      var r', last := r[..|r| - 1], r[|r| - 1];
      assert r == r' + [last];
      InsertAscending(r', x);
      InsertPermutes(r', x);
      var ins := Insert(r', x);
      forall i | 0 <= i < |ins| ensures Time(ins[i]) <= Time(last) {
        assert ins[i] in multiset(ins);
        assert ins[i] in r' || ins[i] == x;
      }
    }
  }

  lemma {:induction false} InsertAtTime(r: seq<MessageRecord>, x: MessageRecord, t: int)
    ensures AtTime(Insert(r, x), t) == AtTime(r, t) + (if Time(x) == t then [x] else [])
  {
    if r == [] || Time(r[|r| - 1]) <= Time(x) {
      AtTimeSnoc(r, x, t);
    } else {
      var r', last := r[..|r| - 1], r[|r| - 1];
      assert r == r' + [last];
      InsertAtTime(r', x, t);
      AtTimeSnoc(Insert(r', x), last, t);
      AtTimeSnoc(r', last, t);
    }
  }

  /** `r` and `s` hold the same messages at every timestamp, in the same order. */
  ghost predicate SameAtEveryTime(r: seq<MessageRecord>, s: seq<MessageRecord>) {
    forall t :: AtTime(r, t) == AtTime(s, t)
  }

  /** The sorted list is ordered, a permutation, and stable: for every
      timestamp, the messages carrying it keep their relative order. */
  lemma {:induction false} SortByTimeCorrect(s: seq<MessageRecord>)
    ensures |SortByTime(s)| == |s|
    ensures Ascending(SortByTime(s))
    ensures multiset(SortByTime(s)) == multiset(s)
    ensures SameAtEveryTime(SortByTime(s), s)
  {
    if s != [] {
      var s', last := s[..|s| - 1], s[|s| - 1];
      assert s == s' + [last];
      SortByTimeCorrect(s');
      InsertPermutes(SortByTime(s'), last);
      InsertAscending(SortByTime(s'), last);
      forall t ensures AtTime(SortByTime(s), t) == AtTime(s, t) {
        InsertAtTime(SortByTime(s'), last, t);
        AtTimeSnoc(s', last, t);
      }
    }
  }

  /** Input that is already in ascending order comes back as it was. */
  lemma {:induction false} SortAscendingIsIdentity(s: seq<MessageRecord>)
    requires Ascending(s)
    ensures SortByTime(s) == s
  {
    if s != [] {
      var s', last := s[..|s| - 1], s[|s| - 1];
      assert s == s' + [last];
      assert Ascending(s');
      SortAscendingIsIdentity(s');
    }
  }

  lemma {:induction false} AscendingLastIsLatest(s: seq<MessageRecord>, x: MessageRecord)
    requires Ascending(s) && x in s
    ensures Time(x) <= Time(s[|s| - 1])
  {
    var i :| 0 <= i < |s| && s[i] == x;
    assert i == |s| - 1 || Time(s[i]) <= Time(s[|s| - 1]);
  }

  /** Two ascending sequences that agree at every timestamp end with the same element. */
  lemma SameLast(a: seq<MessageRecord>, b: seq<MessageRecord>)
    requires Ascending(a) && Ascending(b) && a != [] && b != []
    requires SameAtEveryTime(a, b)
    ensures a[|a| - 1] == b[|b| - 1]
  {
    var a', x := a[..|a| - 1], a[|a| - 1];
    var b', y := b[..|b| - 1], b[|b| - 1];
    assert a == a' + [x] && b == b' + [y];
    AtTimeMembers(a, Time(x), x);
    AtTimeMembers(b, Time(x), x);
    AscendingLastIsLatest(b, x);
    AtTimeMembers(b, Time(y), y);
    AtTimeMembers(a, Time(y), y);
    AscendingLastIsLatest(a, y);
    assert Time(x) == Time(y);
    AtTimeSnoc(a', x, Time(x));
    AtTimeSnoc(b', y, Time(x));
    var at := AtTime(a, Time(x));
    assert at[|at| - 1] == x;
    assert at == AtTime(b, Time(x));
  }

  /** Dropping the same last element keeps the agreement at every timestamp. */
  lemma SameAtEveryTimeDropLast(a': seq<MessageRecord>, b': seq<MessageRecord>, x: MessageRecord)
    requires SameAtEveryTime(a' + [x], b' + [x])
    ensures SameAtEveryTime(a', b')
  {
    forall t ensures AtTime(a', t) == AtTime(b', t) {
      AtTimeSnoc(a', x, t);
      AtTimeSnoc(b', x, t);
      var at, bt := AtTime(a' + [x], t), AtTime(b' + [x], t);
      assert at == bt;
      if Time(x) == t {
        assert AtTime(a', t) == at[..|at| - 1];
        assert AtTime(b', t) == bt[..|bt| - 1];
      } else {
        assert AtTime(a', t) == at;
      }
    }
  }

  /** Two ascending sequences that agree on the messages at every timestamp are
      equal: a stable sort by timestamp has exactly one possible result. */
  lemma {:induction false} StableSortUnique(a: seq<MessageRecord>, b: seq<MessageRecord>)
    requires Ascending(a) && Ascending(b)
    requires SameAtEveryTime(a, b)
    ensures a == b
  {
    if a != [] && b == [] {
      var x := a[|a| - 1];
      AtTimeMembers(a, Time(x), x);
      assert false;
    } else if a == [] && b != [] {
      var x := b[|b| - 1];
      AtTimeMembers(b, Time(x), x);
      assert false;
    } else if a != [] {
      SameLast(a, b);
      var a', b', x := a[..|a| - 1], b[..|b| - 1], a[|a| - 1];
      assert a == a' + [x] && b == b' + [x];
      SameAtEveryTimeDropLast(a', b', x);
      StableSortUnique(a', b');
    }
  }

  /** `SortByTime(s)` is the one ordered, stable rearrangement of `s`. */
  lemma SortByTimeCharacterised(s: seq<MessageRecord>, r: seq<MessageRecord>)
    ensures r == SortByTime(s) <==> Ascending(r) && SameAtEveryTime(r, s)
  {
    SortByTimeCorrect(s);
    if Ascending(r) && SameAtEveryTime(r, s) {
      StableSortUnique(r, SortByTime(s));
    }
  }

  /** Where `x` lands when it is inserted into `r`. */
  lemma {:induction false} InsertAt(r: seq<MessageRecord>, x: MessageRecord, j: nat)
    requires j <= |r|
    requires j == 0 || Time(r[j - 1]) <= Time(x)
    requires forall k :: j <= k < |r| ==> Time(r[k]) > Time(x)
    ensures Insert(r, x) == r[..j] + [x] + r[j..]
  {
    if j < |r| {
      var r' := r[..|r| - 1];
      InsertAt(r', x, j);
      assert r'[..j] == r[..j];
      assert r'[j..] + [r[|r| - 1]] == r[j..];
    }
  }

  /** Moves `a[i]` left past every earlier element later than it. */
  method InsertInPlace(a: array<MessageRecord>, i: nat)
    requires i < a.Length
    modifies a
    ensures a[..i + 1] == Insert(old(a[..i]), old(a[i]))
    ensures a[i + 1..] == old(a[i + 1..])
  {
    ghost var r := a[..i];
    var x := a[i];
    var j := i;
    while j > 0 && Time(a[j - 1]) > Time(x)
      invariant 0 <= j <= i
      invariant forall k :: 0 <= k < j ==> a[k] == r[k]
      invariant forall k :: j < k <= i ==> a[k] == r[k - 1]
      invariant forall k :: j <= k < i ==> Time(r[k]) > Time(x)
      invariant a[i + 1..] == old(a[i + 1..])
    {
      a[j] := a[j - 1];
      j := j - 1;
    }
    a[j] := x;
    InsertAt(r, x, j);
    assert a[..i + 1] == r[..j] + [x] + r[j..];
  }

  /** Sorting one more element of a prefix inserts it into the sorted prefix. */
  lemma SortPrefixStep(s: seq<MessageRecord>, i: nat)
    requires i < |s|
    ensures SortByTime(s[..i + 1]) == Insert(SortByTime(s[..i]), s[i])
  {
    assert s[..i + 1][..i] == s[..i];
  }

  /** The sort at line 52 of the conversation view, done in place. */
  method SortInPlace(a: array<MessageRecord>)
    modifies a
    ensures a[..] == SortByTime(old(a[..]))
  {
    ghost var s := a[..];
    var i := 0;
    while i < a.Length
      invariant 0 <= i <= a.Length
      invariant a[..i] == SortByTime(s[..i])
      invariant a[i..] == s[i..]
    {
      SortPrefixStep(s, i);
      InsertInPlace(a, i);
      i := i + 1;
    }
    assert s[..a.Length] == s;
  }
}
