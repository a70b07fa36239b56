/**
 * The conversation key of the chat screen: the two participants' uids,
 * sorted with JavaScript's default string order and joined with "_"
 * (`[currentUser.uid, userId].sort().join("_")`).
 *
 * JavaScript's default `sort()` compares strings UTF-16 code unit by code
 * unit, a proper prefix first; the model compares Dafny characters
 * lexicographically, which is the same order for characters of the Basic
 * Multilingual Plane.
 */
module ConversationId {

  const Separator: char := '_'

  /** JavaScript's default comparison of two strings: `a` does not sort after `b`. */
  predicate LexLessEq(a: string, b: string)
    decreases |a|
  {
    if a == [] then true
    else if b == [] then false
    else if a[0] != b[0] then a[0] < b[0]
    else LexLessEq(a[1..], b[1..])
  }

  /** Any two strings are comparable. */
  lemma {:induction false} LexTotal(a: string, b: string)
    ensures LexLessEq(a, b) || LexLessEq(b, a)
    decreases |a|
  {
    if a != [] && b != [] && a[0] == b[0] {
      LexTotal(a[1..], b[1..]);
    }
  }

  /** Two strings each no greater than the other are equal. */
  lemma {:induction false} LexAntisymmetric(a: string, b: string)
    requires LexLessEq(a, b) && LexLessEq(b, a)
    ensures a == b
    decreases |a|
  {
    if a != [] && b != [] {
      LexAntisymmetric(a[1..], b[1..]);
      assert a == [a[0]] + a[1..] && b == [b[0]] + b[1..];
    }
  }

  /** Every string is no greater than itself. */
  lemma {:induction false} LexReflexive(a: string)
    ensures LexLessEq(a, a)
    decreases |a|
  {
    if a != [] {
      LexReflexive(a[1..]);
    }
  }

  /** `[a, b].sort()`: the two strings in ascending order. */
  function SortPair(a: string, b: string): (r: seq<string>)
    ensures |r| == 2 && LexLessEq(r[0], r[1])
    ensures multiset(r) == multiset{a, b}
  {
    LexTotal(a, b);
    if LexLessEq(a, b) then [a, b] else [b, a]
  }

  /** `parts.join(sep)`: the parts with `sep` between consecutive ones. */
  function Join(parts: seq<string>, sep: char): (r: string)
    ensures parts == [] ==> r == []
    ensures |parts| == 1 ==> r == parts[0]
    decreases |parts|
  {
    if parts == [] then []
    else if |parts| == 1 then parts[0]
    else parts[0] + [sep] + Join(parts[1..], sep)
  }

  /** The document key of the conversation between `me` and `peer`. */
  function ChatId(me: string, peer: string): (r: string)
    ensures |r| == |me| + |peer| + 1
  {
    Join(SortPair(me, peer), Separator)
  }

  /** The conversation key does not depend on who opens the chat. */
  lemma ChatIdSymmetric(a: string, b: string)
    ensures ChatId(a, b) == ChatId(b, a)
  {
    LexTotal(a, b);
    if LexLessEq(a, b) && LexLessEq(b, a) {
      LexAntisymmetric(a, b);
    }
  }

  /**
   * The key is the lesser uid, one "_", then the greater uid; the uids'
   * own text is kept verbatim.
   */
  lemma ChatIdShape(a: string, b: string)
    ensures LexLessEq(a, b) ==> ChatId(a, b) == a + "_" + b
    ensures !LexLessEq(a, b) ==> ChatId(a, b) == b + "_" + a && LexLessEq(b, a)
  {
  }

  /** In `x + "_" + y` with no "_" in `x`, the first "_" sits right after `x`. */
  lemma FirstSeparatorAt(x: string, y: string)
    requires Separator !in x
    ensures (x + [Separator] + y)[|x|] == Separator
    ensures forall i :: 0 <= i < |x| ==> (x + [Separator] + y)[i] != Separator
  {
  }

  /** A prefix that holds no "_" is determined by a key `x + "_" + y`. */
  lemma SplitAtFirstSeparator(x1: string, y1: string, x2: string, y2: string)
    requires Separator !in x1 && Separator !in x2
    requires x1 + [Separator] + y1 == x2 + [Separator] + y2
    ensures x1 == x2 && y1 == y2
  {
    var s := x1 + [Separator] + y1;
    FirstSeparatorAt(x1, y1);
    FirstSeparatorAt(x2, y2);
    assert |x1| == |x2|;
    assert x1 == s[..|x1|] == x2;
    assert y1 == s[|x1| + 1..] == y2;
  }

  /**
   * For uids free of "_" (as provider-issued ones are), two pairs have the
   * same key only when they are the same pair of people.
   */
  lemma ChatIdInjective(a: string, b: string, c: string, d: string)
    requires Separator !in a && Separator !in b && Separator !in c && Separator !in d
    requires ChatId(a, b) == ChatId(c, d)
    ensures multiset{a, b} == multiset{c, d}
  {
    var p, q := SortPair(a, b), SortPair(c, d);
    SplitAtFirstSeparator(p[0], p[1], q[0], q[1]);
    assert p == q;
  }

  /** With a "_" inside a uid, two different pairs share one key. */
  lemma ChatIdCollidesWithSeparatorInUid()
    ensures ChatId("a_b", "c") == ChatId("a", "b_c") == "a_b_c"
  {
  }
}
