/**
 * Foundation's `trimmingCharacters(in:)` over strings seen as sequences of
 * Unicode scalar values.
 */
module Text {

  /** Membership in `CharacterSet.whitespacesAndNewlines` (the Unicode White_Space property). */
  predicate IsWhitespaceOrNewline(c: char) {
    || ('\U{0009}' <= c <= '\U{000D}')
    || c == ' '
    || c == '\U{0085}'
    || c == '\U{00A0}'
    || c == '\U{1680}'
    || ('\U{2000}' <= c <= '\U{200A}')
    || c == '\U{2028}'
    || c == '\U{2029}'
    || c == '\U{202F}'
    || c == '\U{205F}'
    || c == '\U{3000}'
  }

  /** Neither end of `s` is a character of the trimmed set. */
  predicate IsTrimmed(s: string, drop: char -> bool) {
    s == [] || (!drop(s[0]) && !drop(s[|s| - 1]))
  }

  /** Every character of `s` is in the trimmed set. */
  predicate AllDropped(s: string, drop: char -> bool) {
    forall i :: 0 <= i < |s| ==> drop(s[i])
  }

  /** The index of the first character at or after `from` that is kept. */
  function FirstKept(s: string, drop: char -> bool, from: nat): (k: nat)
    requires from <= |s|
    ensures from <= k <= |s|
    ensures forall i :: from <= i < k ==> drop(s[i])
    ensures k < |s| ==> !drop(s[k])
    decreases |s| - from
  {
    if from < |s| && drop(s[from]) then FirstKept(s, drop, from + 1) else from
  }

  /** The end of the kept part: `upTo` moved down over dropped characters, but not below `lo`. */
  function KeptEnd(s: string, drop: char -> bool, lo: nat, upTo: nat): (k: nat)
    requires lo <= upTo <= |s|
    ensures lo <= k <= upTo
    ensures forall i :: k <= i < upTo ==> drop(s[i])
    ensures k > lo ==> !drop(s[k - 1])
    decreases upTo
  {
    if upTo > lo && drop(s[upTo - 1]) then KeptEnd(s, drop, lo, upTo - 1) else upTo
  }

  /**
   * `trimmingCharacters(in:)`: the result is the part of `s` left once every
   * leading and trailing character in `drop` is removed.
   */
  function Trim(s: string, drop: char -> bool): (r: string)
    ensures IsTrimmed(r, drop)
    ensures var lo := FirstKept(s, drop, 0);
      && lo + |r| <= |s|
      && r == s[lo..lo + |r|]
      && (forall i :: 0 <= i < lo ==> drop(s[i]))
      && (forall i :: lo + |r| <= i < |s| ==> drop(s[i]))
    ensures r == [] <==> AllDropped(s, drop)
  {
    var lo := FirstKept(s, drop, 0);
    var hi := KeptEnd(s, drop, lo, |s|);
    s[lo..hi]
  }

  /** Trimming is idempotent: a trimmed string is its own trim. */
  lemma TrimOfTrimmed(s: string, drop: char -> bool)
    requires IsTrimmed(s, drop)
    ensures Trim(s, drop) == s
  {
  }

  /** Trimming removes exactly the dropped characters around a trimmed core. */
  lemma TrimKeepsInner(prefix: string, inner: string, suffix: string, drop: char -> bool)
    requires AllDropped(prefix, drop)
    requires AllDropped(suffix, drop)
    requires IsTrimmed(inner, drop)
    requires inner != []
    ensures Trim(prefix + inner + suffix, drop) == inner
  {
    var s := prefix + inner + suffix;
    var lo := |prefix|;
    var hi := |prefix| + |inner|;
    assert forall i :: 0 <= i < lo ==> s[i] == prefix[i];
    assert forall i :: hi <= i < |s| ==> s[i] == suffix[i - hi];
    assert s[lo] == inner[0] && s[hi - 1] == inner[|inner| - 1];
    assert FirstKept(s, drop, 0) == lo;
    assert KeptEnd(s, drop, lo, |s|) == hi;
    assert s[lo..hi] == inner;
  }
}
