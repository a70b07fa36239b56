/**
 * `sortMessagesByTimestamp`: sorts an array of messages in place, oldest
 * first, and returns that same array.
 */
module Helpers {

  /**
   * A message's `timestamp`: a Firestore Timestamp (which has `toMillis`),
   * or a plain value that `new Date(...)` turns into whole milliseconds.
   */
  datatype Timestamp = FirestoreTimestamp(seconds: int, nanoseconds: nat) | PlainMillis(millis: int)

  datatype TimedMessage = TimedMessage(text: string, senderId: string, timestamp: Timestamp)

  /** The comparator's operand value in milliseconds (`toMillis()` is fractional for Firestore Timestamps). */
  function TimeMillis(t: Timestamp): real
  {
    match t
    case FirestoreTimestamp(s, n) => (s * 1000) as real + (n as real) / 1000000.0
    case PlainMillis(ms) => ms as real
  }

  /** The sort key: the same instant in whole nanoseconds. */
  function Key(m: TimedMessage): int
  {
    match m.timestamp
    case FirestoreTimestamp(s, n) => s * 1000000000 + n
    case PlainMillis(ms) => ms * 1000000
  }

  /** The key is the comparator's millisecond value scaled to nanoseconds, with no rounding. */
  lemma KeyScalesMillis(m: TimedMessage)
    ensures Key(m) as real == TimeMillis(m.timestamp) * 1000000.0
  {
  }

  /** The integer key orders two messages as the exact-real difference of the comparator `timestampA - timestampB` does. */
  lemma KeyOrdersLikeComparator(a: TimedMessage, b: TimedMessage)
    ensures Key(a) < Key(b) <==> TimeMillis(a.timestamp) - TimeMillis(b.timestamp) < 0.0
    ensures Key(a) == Key(b) <==> TimeMillis(a.timestamp) - TimeMillis(b.timestamp) == 0.0
  {
  }

  /** Timestamps never decrease from first to last. */
  ghost predicate SortedByTimestamp(s: seq<TimedMessage>)
  {
    forall i, j :: 0 <= i < j < |s| ==> Key(s[i]) <= Key(s[j])
  }

  /** Exchanges two neighbouring messages. */
  method SwapWithPrevious(messages: array<TimedMessage>, j: nat)
    requires 0 < j < messages.Length
    modifies messages
    ensures messages[..] == old(messages[..])[j - 1 := old(messages[j])][j := old(messages[j - 1])]
    ensures multiset(messages[..]) == multiset(old(messages[..]))
  {
    messages[j - 1], messages[j] := messages[j], messages[j - 1];
  }

  /**
   * One insertion pass: the message at `i` moves left past every later
   * message until the prefix up to and including `i` is sorted.
   */
  method InsertIntoSortedPrefix(messages: array<TimedMessage>, i: nat)
    requires i < messages.Length
    requires SortedByTimestamp(messages[..i])
    modifies messages
    ensures SortedByTimestamp(messages[..i + 1])
    ensures multiset(messages[..]) == multiset(old(messages[..]))
  {
    var j := i;
    while j > 0 && Key(messages[j - 1]) > Key(messages[j])
      invariant 0 <= j <= i
      invariant forall p, q :: 0 <= p < q <= i && p != j && q != j ==> Key(messages[p]) <= Key(messages[q])
      invariant forall q :: j < q <= i ==> Key(messages[j]) < Key(messages[q])
      invariant 0 < j < i ==> Key(messages[j - 1]) <= Key(messages[j + 1])
      invariant multiset(messages[..]) == multiset(old(messages[..]))
    {
      SwapWithPrevious(messages, j);
      j := j - 1;
    }
  }

  /** Sorting in place, oldest first; the array handed back is the argument itself. */
  method SortMessagesByTimestamp(messages: array<TimedMessage>) returns (r: array<TimedMessage>)
    modifies messages
    ensures r == messages
    ensures SortedByTimestamp(messages[..])
    ensures multiset(messages[..]) == multiset(old(messages[..]))
  {
    var i := 0;
    while i < messages.Length
      invariant 0 <= i <= messages.Length
      invariant SortedByTimestamp(messages[..i])
      invariant multiset(messages[..]) == multiset(old(messages[..]))
    {
      InsertIntoSortedPrefix(messages, i);
      i := i + 1;
    }
    assert messages[..] == messages[..messages.Length];
    r := messages;
  }
}
