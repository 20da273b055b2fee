/** The string operations of JavaScript that the matching engine relies on,
    on strings as sequences of characters. */
module Text {

  /** `sub` occurs in `s` starting at index `i`. */
  predicate OccursAt(s: string, sub: string, i: int)
  {
    0 <= i && i + |sub| <= |s| && s[i..i + |sub|] == sub
  }

  /** `String.prototype.includes`: does `sub` occur anywhere in `s`? */
  function Contains(s: string, sub: string): (r: bool)
    ensures r <==> exists i :: OccursAt(s, sub, i)
    decreases |s|
  {
    if |s| < |sub| then
      false
    else if s[..|sub|] == sub then
      assert OccursAt(s, sub, 0);
      true
    else
      ContainsInTail(s, sub);
      Contains(s[1..], sub)
  }

  /** When `sub` is not at the front of `s`, it occurs in `s` exactly when it
      occurs in the tail of `s`. */
  lemma ContainsInTail(s: string, sub: string)
    requires |sub| <= |s| && s[..|sub|] != sub
    ensures (exists i :: OccursAt(s[1..], sub, i)) <==> (exists i :: OccursAt(s, sub, i))
  {
    if i :| OccursAt(s[1..], sub, i) {
      assert s[1..][i..i + |sub|] == s[i + 1..i + 1 + |sub|];
      assert OccursAt(s, sub, i + 1);
    }
    if i :| OccursAt(s, sub, i) {
      assert i != 0;
      assert s[1..][i - 1..i - 1 + |sub|] == s[i..i + |sub|];
      assert OccursAt(s[1..], sub, i - 1);
    }
  }

  /** Every string that contains `sub` also contains each piece of `sub`. */
  lemma ContainsPiece(s: string, sub: string, from: nat, to: nat)
    requires from <= to <= |sub|
    requires Contains(s, sub)
    ensures Contains(s, sub[from..to])
  {
    var i :| OccursAt(s, sub, i);
    forall k | 0 <= k < to - from
      ensures s[i + from..i + to][k] == sub[from..to][k]
    {
      assert s[i + from + k] == s[i..i + |sub|][from + k];
    }
    assert OccursAt(s, sub[from..to], i + from);
  }

  /** A string contains every piece it is built around. */
  lemma ContainsInMiddle(front: string, sub: string, back: string)
    ensures Contains(front + sub + back, sub)
  {
    var s := front + sub + back;
    assert s[|front|..|front| + |sub|] == sub;
    assert OccursAt(s, sub, |front|);
  }

  /** A prefix of the middle piece, after the same front, is a prefix of
      the whole. */
  lemma PrefixInMiddle(front: string, pre: string, mid: string, back: string)
    requires pre <= mid
    ensures front + pre <= front + mid + back
  {
    assert front + mid + back == front + pre + (mid[|pre|..] + back);
  }

  /** ASCII lower-casing of one character. */
  function LowerChar(c: char): char
  {
    if 'A' <= c <= 'Z' then (c as int + 32) as char else c
  }

  /** `String.prototype.toLowerCase`, restricted to ASCII letters. */
  function ToLower(s: string): (r: string)
    ensures |r| == |s|
    ensures forall i :: 0 <= i < |r| ==> !('A' <= r[i] <= 'Z')
    ensures forall i :: 0 <= i < |s| && !('A' <= s[i] <= 'Z') ==> r[i] == s[i]
    ensures forall i :: 0 <= i < |s| && 'A' <= s[i] <= 'Z' ==> r[i] as int == s[i] as int + 32
  {
    seq(|s|, i requires 0 <= i < |s| => LowerChar(s[i]))
  }

  /** `Array.prototype.join`: a non-empty join starts with the first part. */
  function Join(parts: seq<string>, sep: string): (r: string)
    ensures |parts| > 0 ==> parts[0] <= r
  {
    if |parts| == 0 then ""
    else if |parts| == 1 then parts[0]
    else parts[0] + sep + Join(parts[1..], sep)
  }

  /** Joining the first three parts puts the separator between them. */
  lemma JoinOfFirstThree(parts: seq<string>, sep: string)
    requires |parts| >= 3
    ensures Join(parts[..3], sep) == parts[0] + sep + parts[1] + sep + parts[2]
  {
    var first := parts[..3];
    assert first[1..][1..] == [parts[2]];
    assert Join(first[1..], sep) == parts[1] + sep + parts[2];
  }

  function DigitChar(d: int): char
    requires 0 <= d < 10
  {
    "0123456789"[d]
  }

  function NatToString(n: nat): string
  {
    if n < 10 then [DigitChar(n)] else NatToString(n / 10) + [DigitChar(n % 10)]
  }

  /** The decimal form JavaScript gives a whole number in a template string. */
  function IntToString(i: int): string
  {
    if i < 0 then "-" + NatToString(-i) else NatToString(i)
  }
}
